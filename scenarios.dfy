/**
 * Whole fork cycles driven through `HookState` as the host drives them:
 * the target app, another app, and the two ways a failed capture leaves
 * earlier state behind.
 */
module Scenarios {
  import opened Wrappers
  import opened CStrings
  import opened StringBridge
  import opened Loader
  import opened Hooks

  const WeChatDataDir := "/data/user/0/com.tencent.mm"
  const OtherPackage := "com.other.app"
  const OtherDataDir := "/data/user/0/com.other.app"

  lemma NulFree()
    ensures NoNul(WeChatDataDir) && NoNul(TargetPackage)
    ensures NoNul(OtherPackage) && NoNul(OtherDataDir)
  {
  }

  /** A runtime string that converts without failure. */
  function Live(s: string): (a: StringArg) {
    StringArg(Some(s), true, true)
  }

  /** The target app starts and the primary dex exists: the plugin's `main` is called once with its data directory. */
  method TargetAppLaunch() returns (req: Option<LoadRequest>, outcome: Outcome)
    ensures req == Some(LoadRequest(PrimaryDexPath, WeChatDataDir + "/cache", PluginClass, "main", Some(WeChatDataDir)))
    ensures outcome == Invoked(WeChatDataDir)
  {
    var m := new HookState();
    m.ForkAndSpecializePre(Live(WeChatDataDir), Live(TargetPackage), true);
    NulFree();
    SuccessfulCapture(Globals(false, None), WeChatDataDir, TargetPackage);
    assert m.State() == Globals(true, Some(WeChatDataDir));
    req := m.ForkAndSpecializePost(0, p => p == PrimaryDexPath);
    var steps;
    outcome, steps := LoadRequested(req.value, Resolution(true, true));
  }

  /** Another app starts: no request, whatever the file system holds. */
  method OtherAppLaunch(fileExists: string -> bool) returns (req: Option<LoadRequest>)
    ensures req == None
  {
    var m := new HookState();
    m.ForkAndSpecializePre(Live(OtherDataDir), Live(OtherPackage), true);
    NulFree();
    SuccessfulCapture(Globals(false, None), OtherDataDir, OtherPackage);
    assert !m.hookEnable;
    req := m.ForkAndSpecializePost(0, fileExists);
  }

  /** In the zygote (non-zero result) nothing is requested even for the target app. */
  method TargetAppZygoteSide(pid: int, fileExists: string -> bool) returns (req: Option<LoadRequest>)
    requires pid != 0
    ensures req == None
  {
    var m := new HookState();
    m.ForkAndSpecializePre(Live(WeChatDataDir), Live(TargetPackage), true);
    req := m.ForkAndSpecializePost(pid, fileExists);
  }

  /** A failed data-directory capture in a fresh process leaves the flag off: nothing is requested. */
  method FirstCaptureFails(niceName: StringArg, fileExists: string -> bool) returns (req: Option<LoadRequest>)
    ensures req == None
  {
    var m := new HookState();
    m.ForkAndSpecializePre(StringArg(None, true, true), niceName, true);
    req := m.ForkAndSpecializePost(0, fileExists);
  }

  /**
   * Two cycles in one process: another app is captured, then a process with
   * a null data directory is. The flag the first capture cleared stays
   * cleared, so nothing is requested.
   */
  method FailedCaptureAfterOtherApp(fileExists: string -> bool) returns (req: Option<LoadRequest>)
    ensures req == None
  {
    var m := new HookState();
    m.ForkAndSpecializePre(Live(OtherDataDir), Live(OtherPackage), true);
    NulFree();
    SuccessfulCapture(Globals(false, None), OtherDataDir, OtherPackage);
    assert !m.hookEnable;
    m.ForkAndSpecializePre(StringArg(None, true, true), Live(TargetPackage), true);
    req := m.ForkAndSpecializePost(0, fileExists);
  }

  /**
   * Whatever an earlier cycle left behind, a capture whose data-directory
   * handle is null keeps the old decision: the post-hook requests a load
   * exactly when the flag was already set, with the old directory.
   */
  method FailedCapturePost(m: HookState, niceName: StringArg, fileExists: string -> bool)
    returns (req: Option<LoadRequest>)
    requires m.Valid()
    modifies m
    ensures req.Some? <==> old(m.hookEnable)
    ensures req.Some? ==> req.value.arg == old(m.appDataDir)
  {
    m.ForkAndSpecializePre(StringArg(None, true, true), niceName, true);
    req := m.ForkAndSpecializePost(0, fileExists);
  }

  /**
   * Two cycles in one process: the target app is captured, then a process
   * with a null data directory is. The second capture aborts without
   * clearing anything, so its post-hook requests the plugin with the
   * target app's data directory.
   */
  method StaleCaptureReused() returns (req: Option<LoadRequest>)
    ensures req.Some? && req.value.arg == Some(WeChatDataDir)
  {
    var m := new HookState();
    m.ForkAndSpecializePre(Live(WeChatDataDir), Live(TargetPackage), true);
    NulFree();
    SuccessfulCapture(Globals(false, None), WeChatDataDir, TargetPackage);
    assert m.State() == Globals(true, Some(WeChatDataDir));
    m.ForkAndSpecializePre(StringArg(None, true, true), Live(OtherPackage), true);
    req := m.ForkAndSpecializePost(0, p => false);
  }

  /**
   * A `strdup` failure after the target app was captured nulls the data
   * directory but keeps the flag: a request is built, with "(null)/cache"
   * as staging directory, and `loadDex` skips it for its null argument.
   */
  method LostDataDirSkipsLoad(rt: Resolution) returns (req: Option<LoadRequest>, outcome: Outcome)
    ensures req.Some? && req.value.stagingDir == "(null)" + "/cache" && req.value.arg == None
    ensures outcome == Skipped
  {
    var m := new HookState();
    m.ForkAndSpecializePre(Live(WeChatDataDir), Live(TargetPackage), true);
    NulFree();
    SuccessfulCapture(Globals(false, None), WeChatDataDir, TargetPackage);
    assert m.State() == Globals(true, Some(WeChatDataDir));
    m.ForkAndSpecializePre(Live(OtherDataDir), Live(OtherPackage), false);
    FailedDuplicate(Globals(true, Some(WeChatDataDir)), OtherDataDir, Live(OtherPackage));
    assert m.State() == Globals(true, None);
    assert |FormatArg(None)| == 6;
    req := m.ForkAndSpecializePost(0, p => true);
    var steps;
    outcome, steps := LoadRequested(req.value, rt);
  }
}
