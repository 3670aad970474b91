/**
 * The control flow of `loadDex`: the null-argument guards, the choice
 * between `findClass` and `loadClass`, and the halt when the entry point
 * cannot be resolved. The runtime's reflective calls are recorded as steps;
 * what the runtime answers is an input.
 */
module Loader {
  import opened Wrappers

  /** What the runtime resolves: whether `DexClassLoader.findClass` exists, and whether the target static method does. */
  datatype Resolution = Resolution(hasFindClass: bool, hasTargetMethod: bool)

  /** One reflective call into the runtime, in the order `loadDex` makes them. */
  datatype Step =
    | GetSystemClassLoader
    | NewDexClassLoader(dexPath: string, optimizedDir: string)
    | ResolveLookup(name: string)
    | LoadClass(lookup: string, className: string)
    | ResolveEntry(methodName: string)
    | CallEntry(methodName: string, arg: string)

  /** How one `loadDex` call ends: a null argument, an unresolved entry point, or one call of the entry point. */
  datatype Outcome = Skipped | Halted | Invoked(arg: string)

  const FindClassLookup := "findClass"
  const LoadClassLookup := "loadClass"

  /** The number of entry-point calls in a trace. */
  function Calls(steps: seq<Step>): (n: nat)
    ensures n <= |steps|
    ensures n == 0 <==> forall i :: 0 <= i < |steps| ==> !steps[i].CallEntry?
  {
    if steps == [] then 0
    else Calls(steps[..|steps| - 1]) + (if steps[|steps| - 1].CallEntry? then 1 else 0)
  }

  method LoadDex(dexPath: Option<string>, odexPath: Option<string>, className: Option<string>,
                 methodName: string, arg: Option<string>, rt: Resolution)
    returns (outcome: Outcome, steps: seq<Step>)
    ensures outcome.Skipped? <==> dexPath.None? || odexPath.None? || className.None? || arg.None?
    ensures outcome.Skipped? ==> steps == []
    ensures !outcome.Skipped? ==>
      |steps| >= 2 && steps[0] == GetSystemClassLoader &&
      steps[1] == NewDexClassLoader(dexPath.value, odexPath.value)
    ensures ResolveLookup(LoadClassLookup) in steps <==> !outcome.Skipped? && !rt.hasFindClass
    ensures !outcome.Skipped? ==>
      LoadClass(if rt.hasFindClass then FindClassLookup else LoadClassLookup, className.value) in steps
    ensures outcome.Halted? <==> !outcome.Skipped? && !rt.hasTargetMethod
    ensures outcome.Invoked? ==> outcome.arg == arg.value
    ensures Calls(steps) == if outcome.Invoked? then 1 else 0
    ensures outcome.Invoked? ==> |steps| > 0 && steps[|steps| - 1] == CallEntry(methodName, arg.value)
  {
    steps := [];
    if dexPath.None? {
      return Skipped, steps;
    }
    if odexPath.None? {
      return Skipped, steps;
    }
    if className.None? {
      return Skipped, steps;
    }
    if arg.None? {
      return Skipped, steps;
    }
    steps := steps + [GetSystemClassLoader];
    steps := steps + [NewDexClassLoader(dexPath.value, odexPath.value)];
    var lookup := FindClassLookup;
    steps := steps + [ResolveLookup(lookup)];
    if !rt.hasFindClass {
      lookup := LoadClassLookup;
      steps := steps + [ResolveLookup(lookup)];
    }
    steps := steps + [LoadClass(lookup, className.value)];
    steps := steps + [ResolveEntry(methodName)];
    if !rt.hasTargetMethod {
      return Halted, steps;
    }
    steps := steps + [CallEntry(methodName, arg.value)];
    outcome := Invoked(arg.value);
  }
}
