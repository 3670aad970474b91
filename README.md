# Riru zygote hook for the WeChat fingerprint plugin — Dafny model

The module is a Riru module. Riru calls it around every fork the Android zygote makes.
Before an app process is forked and specialized, the pre-hook turns the process's data
directory and nice name into C strings. It then records whether the nice name is exactly
`com.tencent.mm`. After the fork, the post-hook runs in the new app process when the
result code is 0. If the flag is set, it loads an external dex with a `DexClassLoader`
and calls the static `main(String)` of
`com.yyxx.wechatfp.xposed.plugin.XposedWeChatPlugin`, passing the data directory.

The model covers the decision core of `module/src/main/cpp/main.cpp`:

- `CStrings`: `strlen`, `strcmp` and the null-aware `equals` over NUL-terminated buffers.
  A buffer is a `seq<char>`. The string it denotes is everything before its first NUL.
- `StringBridge`: `jstringToC`. It allocates `len + 1` chars, zeroes them, copies the
  characters and releases them. The runtime's answer to `GetStringUTFChars` and `malloc`'s
  answer are inputs. The result is the buffer's contents as a value, together with
  whether the characters were acquired and released.
- `Loader`: the control flow of `loadDex`. It has the null-argument guards, the
  `findClass`/`loadClass` choice and the halt on a missing entry point. The reflective
  calls are recorded as a trace of steps. What the runtime resolves is an input.
- `Hooks`: the globals `sHookEnable` and `sAppDataDir` as the fields of class `HookState`.
  `Pre` updates them. `Post` reads them and returns the load request that `post` hands to
  `loadDex`, or none. The six hook functions are methods of the class. The existence
  check of `access` is an oracle `fileExists`.
- `Registration`: `init`'s API version negotiation. The module speaks the smaller of the
  core's and its own version. It adopts the core's allow-unload slot only from version 25.
- `Scenarios`: whole fork cycles driven through `HookState`: the target app, another app,
  the zygote side of a fork, and failed captures.

A failed data-directory conversion returns early without touching either global
(main.cpp:103-107). So a flag and a directory captured in an earlier cycle of the same
process survive. `Scenarios.StaleCaptureReused` shows the consequence: the post-hook of the
later cycle requests the plugin with the earlier app's data directory. A failed
capture leads to no request exactly when the flag is already off
(`Scenarios.FailedCapturePost`): in a fresh process (`Scenarios.FirstCaptureFails`), or
when the last capture that reached the match at main.cpp:115 was of another app
(`Scenarios.FailedCaptureAfterOtherApp`).

Two more quirks are kept on purpose:

- A failed `strdup` nulls `sAppDataDir` but keeps the flag. The request is then built
  with `"(null)/cache"` as staging directory, as bionic's `printf` formats a null `%s`.
  `loadDex` skips it because its argument is null (`Scenarios.LostDataDirSkipsLoad`).
- The fallback dex path is never probed (`Hooks.SelectDexPath`). So when neither dex
  exists, `loadDex` goes on to a class that cannot be loaded, which is among the undefined
  cases listed under "## Left out": the model says nothing about what then happens to the
  app.

## Model

| member | source | states |
|---|---|---|
| `CStrings.CStrLen` | module/src/main/cpp/main.cpp:18 | the length `strlen` measures: within the buffer, no NUL before it, a NUL at it when it is inside the buffer |
| `CStrings.CStringOfTerminated` | module/src/main/cpp/main.cpp:21-22 | a NUL-free string followed by one zero denotes exactly that string |
| `CStrings.StrCmp` | module/src/main/cpp/main.cpp:35 | `strcmp` is zero exactly when the two buffers denote the same string |
| `CStrings.Equals` | module/src/main/cpp/main.cpp:30-40 | true iff both pointers are null, or both are non-null and denote the same string; exactly one null gives false |
| `StringBridge.ConvertedBuffer` | module/src/main/cpp/main.cpp:13-28 | null iff the handle is null, the character fetch fails or `malloc` fails; otherwise `len + 1` chars, the first `len` equal to the source and the last one zero |
| `StringBridge.ConvertedString` | module/src/main/cpp/main.cpp:13-28 | the converted buffer is terminated and denotes the source's characters up to its first NUL |
| `StringBridge.ConversionRoundTrip` | module/src/main/cpp/main.cpp:13-28 | a NUL-free string converts to itself plus one terminator and reads back unchanged |
| `StringBridge.JStringToC` | module/src/main/cpp/main.cpp:13-28 | the filled buffer is the converted buffer; the characters are acquired iff the handle is non-null and the fetch succeeds; they are released exactly when acquired |
| `Loader.Calls` | module/src/main/cpp/main.cpp:99 | the number of entry-point calls in a trace is zero iff the trace has no call |
| `Loader.LoadDex` | module/src/main/cpp/main.cpp:49-100 | skipped, with no runtime call, iff the dex path, staging dir, class name or argument is null; otherwise it starts with the system class loader and a `DexClassLoader` over the dex path and staging dir; it resolves `loadClass` iff `findClass` is missing and loads the class through whichever it got; it halts iff the target method is missing; it calls the entry point exactly once, last and with the argument, otherwise and never when halted |
| `Hooks.AfterPre` | module/src/main/cpp/main.cpp:102-119 | a failed data-dir conversion leaves both globals unchanged; a failed `strdup` nulls the directory and keeps the old flag; otherwise the directory is the converted string and the flag is true iff the converted nice name is `com.tencent.mm`; an absent nice name gives false |
| `Hooks.SuccessfulCapture` | module/src/main/cpp/main.cpp:108-115 | when every conversion succeeds for NUL-free strings, the globals become (nice name == `com.tencent.mm`, data dir) |
| `Hooks.FailedDuplicate` | module/src/main/cpp/main.cpp:108-113 | a failed `strdup` after a successful conversion nulls the directory and keeps the flag |
| `Hooks.MatchIsExact` | module/src/main/cpp/main.cpp:115 | a NUL-free nice name matches iff it is exactly the target package |
| `Hooks.StagingDir` | module/src/main/cpp/main.cpp:123-124 | at most `PATH_MAX - 2` chars and a prefix of `dir + "/cache"`; the whole of it when that fits, exactly `PATH_MAX - 2` chars when it does not |
| `Hooks.SelectDexPath` | module/src/main/cpp/main.cpp:126-129 | the primary path is chosen iff it exists; otherwise the fallback, with no condition on whether the fallback exists |
| `Hooks.LoadRequested` | module/src/main/cpp/main.cpp:130-136 | the load of a request is skipped iff its argument is null, halts iff the entry point is missing, and otherwise calls the entry point once with the data directory, using a `DexClassLoader` over the request's dex path and staging dir |
| `Hooks.HookState.constructor` | module/src/main/cpp/main.cpp:10-11 | the flag starts false and the directory null |
| `Hooks.HookState.Pre` | module/src/main/cpp/main.cpp:102-119 | the new globals are `AfterPre` of the old ones; the directory stays NUL-free |
| `Hooks.HookState.Post` | module/src/main/cpp/main.cpp:121-138 | a request iff the flag is set; its dex path is the chosen one, its staging dir is `StagingDir(sAppDataDir)`, its class is the plugin class, its method is `main` and its argument is `sAppDataDir` |
| `Hooks.HookState.ForkAndSpecializePre` | module/src/main/cpp/main.cpp:140-149 | runs `pre`: the new globals are `AfterPre` of the old ones |
| `Hooks.HookState.ForkAndSpecializePost` | module/src/main/cpp/main.cpp:151-159 | a request iff the result code is 0 and the flag is set, and then the request `post` builds |
| `Hooks.HookState.SpecializeAppProcessPre` | module/src/main/cpp/main.cpp:161-169 | runs `pre`: the new globals are `AfterPre` of the old ones |
| `Hooks.HookState.SpecializeAppProcessPost` | module/src/main/cpp/main.cpp:171-175 | runs `post` with no result code: a request iff the flag is set |
| `Hooks.HookState.ForkSystemServerPre` | module/src/main/cpp/main.cpp:177-181 | changes nothing |
| `Hooks.HookState.ForkSystemServerPost` | module/src/main/cpp/main.cpp:183-190 | never requests a load, whatever the result code |
| `Registration.NegotiatedVersion` | module/src/main/cpp/main.cpp:219-221 | the negotiated version is at most both the core's and the module's, and is one of them |
| `Registration.ModuleRegistration.constructor` | module/src/main/cpp/main.cpp:198-203 | the descriptor's version starts as the built-in one; `riru_api_version` starts at 0 and the allow-unload slot null |
| `Registration.ModuleRegistration.Init` | module/src/main/cpp/main.cpp:218-229 | `riru_api_version` and the descriptor's version become the negotiated version; the allow-unload slot is adopted iff that version is at least 25, else left as it was |
| `Scenarios.TargetAppLaunch` | module/src/main/cpp/main.cpp:140-159 | for `com.tencent.mm` with data dir `/data/user/0/com.tencent.mm` and the primary dex present, the request is (primary path, `.../cache`, plugin class, `main`, data dir) and `main` is called with the data dir |
| `Scenarios.OtherAppLaunch` | module/src/main/cpp/main.cpp:114-118 | another package gets no request, whatever the file system holds |
| `Scenarios.TargetAppZygoteSide` | module/src/main/cpp/main.cpp:151-158 | a non-zero result code gives no request, even for the target app |
| `Scenarios.FirstCaptureFails` | module/src/main/cpp/main.cpp:103-107 | in a fresh process a null data-dir handle leads to no request |
| `Scenarios.FailedCaptureAfterOtherApp` | module/src/main/cpp/main.cpp:103-107 | after another app was captured, a later cycle with a null data-dir handle keeps the flag off and gets no request |
| `Scenarios.FailedCapturePost` | module/src/main/cpp/main.cpp:103-107 | for any state, after a pre-hook whose data-dir handle is null, the post-hook requests a load exactly when the flag was already set, and then with the old data directory |
| `Scenarios.StaleCaptureReused` | module/src/main/cpp/main.cpp:103-107 | after the target app was captured, a later cycle with a null data-dir handle still gets a request, with the target app's data directory as argument |
| `Scenarios.LostDataDirSkipsLoad` | module/src/main/cpp/main.cpp:108-113 | after the target app was captured, a later failed `strdup` gives a request with staging dir `(null)/cache` and a null argument, which `loadDex` skips |

## Left out

- The JNI calls themselves (`FindClass`, `GetMethodID`, `NewObject`, `CallObjectMethod`,
  `CallStaticVoidMethod`) are recorded as trace steps. What they answer is the input
  `Resolution`: whether `findClass` exists and whether the target method does.
- Behaviour the C++ code leaves undefined is not modelled. This covers a missing
  `loadClass` after a missing `findClass`, and a class that fails to load before
  `GetStaticMethodID`.
- LoadDex: a failed `GetMethodID` or `GetStaticMethodID` leaves a `NoSuchMethodError`
  pending, and `loadDex` never clears it. The model does not track that exception. After a
  missing `findClass` the `loadClass` lookup is modelled as an ordinary lookup, although the
  source makes it with the exception pending. A `Halted` outcome is modelled as a clean
  stop, although the exception is still pending when `post` returns to the host.
- `NewStringUTF` is assumed to succeed for a non-null string and to give null for a null
  one. Its out-of-memory failure is not modelled. `LoadDex` still takes every handle as
  possibly null.
- `access` is the oracle `fileExists`. The file system is not modelled.
- Logging (`LOGD`) is not modelled. Neither is the rule that the zygote branch must not log.
- The Riru descriptor's static contents, the `strdup` of the Magisk module path and
  `onModuleLoaded` are not modelled. The value of `RIRU_MODULE_API_VERSION` is set by the
  build configuration, which is not part of this model. It is the constructor argument
  of `ModuleRegistration`.
- The hook parameters other than the data directory and the nice name are not modelled,
  because the code never reads them.
- `free`, ownership and the leaked old `sAppDataDir` are not modelled. Strings are
  values. `JStringToC` fills a local array and returns its contents.
- A `char` stands for one byte of the modified UTF-8 the runtime hands out. `strcmp`
  compares those values. Modified UTF-8 never contains a zero byte, so a handle with a NUL
  inside cannot occur in the source. The model still accepts such handles and cuts them at
  the first NUL, as `strlen` would. That prefix match is not behaviour the source can show.
- JStringToC: the source stores `strlen`'s `size_t` result in an `int len`
  (main.cpp:18-19). Strings of 2^31 bytes or more, for which `len` wraps, are not
  modelled; `len` is unbounded here.
- The injected plugin's behaviour is opaque and not modelled.
- Concurrency is not modelled: the host calls the hooks one at a time on one thread.
