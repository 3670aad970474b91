/**
 * The lifecycle hooks: `pre` captures the data directory and decides the
 * hook flag, `post` turns the flag into a load request, and the six hook
 * functions the host calls around each fork wire the two together. The
 * process-wide globals `sHookEnable` and `sAppDataDir` are the fields of
 * `HookState`.
 */
module Hooks {
  import opened Wrappers
  import opened CStrings
  import opened StringBridge
  import opened Loader

  /** The one package whose process is injected. */
  const TargetPackage := "com.tencent.mm"
  const PrimaryDexPath := "/data/local/tmp/libriru_module_xfingerprint_pay_wechat.dex"
  const FallbackDexPath := "/system/framework/libriru_module_xfingerprint_pay_wechat.dex"
  const PluginClass := "com.yyxx.wechatfp.xposed.plugin.XposedWeChatPlugin"
  const EntryMethod := "main"
  /** `PATH_MAX` on Linux and Android. */
  const PathMax := 4096

  /** The two globals: the hook flag and the captured data directory (`None` for a null pointer). */
  datatype Globals = Globals(hookEnable: bool, appDataDir: Option<string>)

  /** What `post` hands to `loadDex`; `arg` is null when `sAppDataDir` is. */
  datatype LoadRequest = LoadRequest(
    dexPath: string, stagingDir: string, className: string, methodName: string, arg: Option<string>)

  lemma TargetIsNulFree()
    ensures NoNul(TargetPackage) && Terminated(TargetPackage + [NUL])
    ensures CString(TargetPackage + [NUL]) == TargetPackage
  {
    CStringOfTerminated(TargetPackage);
  }

  /**
   * The globals after `pre`: a failed data-directory conversion leaves both
   * untouched; a failed `strdup` nulls the directory and keeps the old flag;
   * otherwise the directory is captured and the flag says whether the nice
   * name is exactly the target package.
   */
  function AfterPre(g: Globals, dataDir: StringArg, niceName: StringArg, strdupOk: bool): (r: Globals)
    ensures ConvertedString(dataDir).None? ==> r == g
    ensures ConvertedString(dataDir).Some? && !strdupOk ==> r == Globals(g.hookEnable, None)
    ensures ConvertedString(dataDir).Some? && strdupOk ==>
      r.appDataDir == ConvertedString(dataDir) &&
      (r.hookEnable <==> ConvertedString(niceName) == Some(TargetPackage))
    ensures ConvertedString(dataDir).Some? && strdupOk && niceName.handle.None? ==> !r.hookEnable
  {
    match ConvertedBuffer(dataDir)
    case None => g
    case Some(buf) =>
      if !strdupOk then
        Globals(g.hookEnable, None)
      else
        TargetIsNulFree();
        Globals(Equals(ConvertedBuffer(niceName), Some(TargetPackage + [NUL])), Some(CString(buf)))
  }

  /** A nice name without NUL matches exactly when it is the target package, byte for byte. */
  lemma MatchIsExact(niceName: StringArg)
    requires niceName.handle.Some? && niceName.charsOk && niceName.mallocOk
    requires NoNul(niceName.handle.value)
    ensures ConvertedString(niceName) == Some(TargetPackage) <==> niceName.handle.value == TargetPackage
  {
    ConversionRoundTrip(niceName);
  }

  /** A capture whose conversions and `strdup` all succeed records the directory and the exact match. */
  lemma SuccessfulCapture(g: Globals, dataDir: string, niceName: string)
    requires NoNul(dataDir) && NoNul(niceName)
    ensures AfterPre(g, StringArg(Some(dataDir), true, true), StringArg(Some(niceName), true, true), true)
         == Globals(niceName == TargetPackage, Some(dataDir))
  {
    ConversionRoundTrip(StringArg(Some(dataDir), true, true));
    MatchIsExact(StringArg(Some(niceName), true, true));
  }

  /** A failed `strdup` after a successful conversion nulls the directory and keeps the flag. */
  lemma FailedDuplicate(g: Globals, dataDir: string, niceName: StringArg)
    ensures AfterPre(g, StringArg(Some(dataDir), true, true), niceName, false) == Globals(g.hookEnable, None)
  {
  }

  /** The argument of `%s`: a null pointer prints as "(null)" in bionic's `printf`. */
  function FormatArg(s: Option<string>): (r: string) {
    match s
    case None => "(null)"
    case Some(v) => v
  }

  /**
   * `snprintf(appCacheDir, PATH_MAX - 1, "%s/cache", dir)`: the formatted
   * text cut to the `PATH_MAX - 2` characters that fit before the terminator.
   */
  function StagingDir(dir: Option<string>): (r: string)
    ensures |r| <= PathMax - 2
    ensures r <= FormatArg(dir) + "/cache"
    ensures |FormatArg(dir)| + 6 <= PathMax - 2 ==> r == FormatArg(dir) + "/cache"
    ensures |FormatArg(dir)| + 6 > PathMax - 2 ==> |r| == PathMax - 2
  {
    var full := FormatArg(dir) + "/cache";
    if |full| <= PathMax - 2 then full else full[..PathMax - 2]
  }

  /**
   * The dex path: the primary location when `access` finds it, otherwise
   * the fallback, whose existence is not checked.
   */
  method SelectDexPath(fileExists: string -> bool) returns (dexPath: string)
    ensures dexPath == PrimaryDexPath <==> fileExists(PrimaryDexPath)
    ensures dexPath != PrimaryDexPath ==> dexPath == FallbackDexPath
  {
    dexPath := PrimaryDexPath;
    if !fileExists(dexPath) {
      dexPath := FallbackDexPath;
    }
  }

  /** The request `post` builds from the data directory and the file system's answer. */
  ghost predicate IsRequestFor(req: LoadRequest, dir: Option<string>, fileExists: string -> bool) {
    && req.dexPath == (if fileExists(PrimaryDexPath) then PrimaryDexPath else FallbackDexPath)
    && req.stagingDir == StagingDir(dir)
    && req.className == PluginClass
    && req.methodName == EntryMethod
    && req.arg == dir
  }

  /**
   * The `loadDex` call at the end of `post`: every string of the request
   * becomes a runtime string, and the data directory a null one when it is null.
   */
  method LoadRequested(req: LoadRequest, rt: Resolution) returns (outcome: Outcome, steps: seq<Step>)
    ensures outcome.Skipped? <==> req.arg.None?
    ensures outcome.Skipped? ==> steps == []
    ensures !outcome.Skipped? ==> |steps| >= 2 && steps[1] == NewDexClassLoader(req.dexPath, req.stagingDir)
    ensures outcome.Halted? <==> req.arg.Some? && !rt.hasTargetMethod
    ensures outcome.Invoked? <==> req.arg.Some? && rt.hasTargetMethod
    ensures outcome.Invoked? ==> outcome.arg == req.arg.value
    ensures outcome.Invoked? ==> |steps| > 0 && steps[|steps| - 1] == CallEntry(req.methodName, req.arg.value)
    ensures Calls(steps) == if outcome.Invoked? then 1 else 0
  {
    outcome, steps := LoadDex(Some(req.dexPath), Some(req.stagingDir), Some(req.className),
                              req.methodName, req.arg, rt);
  }

  class HookState {
    var hookEnable: bool
    var appDataDir: Option<string>

    /** The captured directory is a C string, so it holds no NUL. */
    ghost predicate Valid()
      reads this
    {
      appDataDir.Some? ==> NoNul(appDataDir.value)
    }

    function State(): (g: Globals)
      reads this
    {
      Globals(hookEnable, appDataDir)
    }

    /** The static initial values: flag off, directory null. */
    constructor ()
      ensures Valid() && State() == Globals(false, None)
    {
      hookEnable := false;
      appDataDir := None;
    }

    /** `pre`: identity capture and target matching. */
    method Pre(dataDir: StringArg, niceName: StringArg, strdupOk: bool)
      requires Valid()
      modifies this
      ensures Valid()
      ensures State() == AfterPre(old(State()), dataDir, niceName, strdupOk)
    {
      var cAppDataDir := JStringToC(dataDir);
      if cAppDataDir.buffer.None? {
        return;
      }
      appDataDir := if strdupOk then Some(CString(cAppDataDir.buffer.value)) else None;
      if appDataDir.None? {
        return;
      }
      var cNiceName := JStringToC(niceName);
      TargetIsNulFree();
      hookEnable := Equals(cNiceName.buffer, Some(TargetPackage + [NUL]));
    }

    /** `post`: a load request exactly when the flag is set. */
    method Post(fileExists: string -> bool) returns (req: Option<LoadRequest>)
      requires Valid()
      ensures req.Some? <==> hookEnable
      ensures req.Some? ==> IsRequestFor(req.value, appDataDir, fileExists)
    {
      req := None;
      if hookEnable {
        var stagingDir := StagingDir(appDataDir);
        var dexPath := SelectDexPath(fileExists);
        req := Some(LoadRequest(dexPath, stagingDir, PluginClass, EntryMethod, appDataDir));
      }
    }

    method ForkAndSpecializePre(dataDir: StringArg, niceName: StringArg, strdupOk: bool)
      requires Valid()
      modifies this
      ensures Valid()
      ensures State() == AfterPre(old(State()), dataDir, niceName, strdupOk)
    {
      Pre(dataDir, niceName, strdupOk);
    }

    /** Result 0 means the call returns in the new app process; any other value is the child's pid in the zygote. */
    method ForkAndSpecializePost(res: int, fileExists: string -> bool) returns (req: Option<LoadRequest>)
      requires Valid()
      ensures req.Some? <==> res == 0 && hookEnable
      ensures req.Some? ==> IsRequestFor(req.value, appDataDir, fileExists)
    {
      req := None;
      if res == 0 {
        req := Post(fileExists);
      }
    }

    method SpecializeAppProcessPre(dataDir: StringArg, niceName: StringArg, strdupOk: bool)
      requires Valid()
      modifies this
      ensures Valid()
      ensures State() == AfterPre(old(State()), dataDir, niceName, strdupOk)
    {
      Pre(dataDir, niceName, strdupOk);
    }

    /** There is no result code here: `post` runs unconditionally. */
    method SpecializeAppProcessPost(fileExists: string -> bool) returns (req: Option<LoadRequest>)
      requires Valid()
      ensures req.Some? <==> hookEnable
      ensures req.Some? ==> IsRequestFor(req.value, appDataDir, fileExists)
    {
      req := Post(fileExists);
    }

    /** The system-server hooks are wired but do nothing. */
    method ForkSystemServerPre()
      ensures unchanged(this)
    {
    }

    method ForkSystemServerPost(res: int) returns (req: Option<LoadRequest>)
      ensures req.None?
    {
      req := None;
    }
  }
}
