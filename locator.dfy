/** The tool locator of `findImplBin`: the path of the `impl` generator is
    derived from `GOBIN` or `GOPATH` and accepted only if it names an
    executable regular file. The process environment and the filesystem are
    injected through `Host`. */
module ToolLocator {
  import opened Wrappers

  /** What `lstat` reports about a path itself (a symbolic link is not followed). */
  datatype FileKind = RegularFile | Directory | SymbolicLink | OtherKind

  /** The ambient state the locator reads.
      `getEnv(name)` is "" for an unset variable, as `process.env` is falsy then;
      `lstat(path)` is None where `lstatSync` throws (missing path, no permission, ...);
      `canExecute(path)` is false where `accessSync(path, F_OK | X_OK)` throws. */
  datatype Host = Host(
    getEnv: string -> string,
    lstat: string -> Option<FileKind>,
    canExecute: string -> bool)

  /** The path the locator checks: `GOBIN` wins over `GOPATH`; with neither set it is "". */
  function CandidatePath(getEnv: string -> string): (path: string)
    ensures getEnv("GOBIN") != "" ==> path == getEnv("GOBIN") + "/impl"
    ensures getEnv("GOBIN") == "" && getEnv("GOPATH") != "" ==> path == getEnv("GOPATH") + "/bin/impl"
    ensures path == "" <==> getEnv("GOBIN") == "" && getEnv("GOPATH") == ""
  {
    if getEnv("GOBIN") != "" then getEnv("GOBIN") + "/impl"
    else if getEnv("GOPATH") != "" then getEnv("GOPATH") + "/bin/impl"
    else ""
  }

  /** The result `findImplBin` promises: "" or exactly the candidate, and the
      candidate only when there is one, `lstat` sees a regular file there and
      execute access is granted. */
  function ResolvedBin(host: Host): (binPath: string)
    ensures binPath == "" || binPath == CandidatePath(host.getEnv)
    ensures binPath != "" <==>
              && CandidatePath(host.getEnv) != ""
              && host.lstat(CandidatePath(host.getEnv)) == Some(RegularFile)
              && host.canExecute(CandidatePath(host.getEnv))
  {
    var path := CandidatePath(host.getEnv);
    if host.lstat(path) == Some(RegularFile) && host.canExecute(path) then path else ""
  }

  /** `findImplBin`, step by step: choose the candidate, then run the two
      filesystem checks, turning any failure of either into "". */
  method FindImplBin(host: Host) returns (binPath: string)
    ensures binPath == ResolvedBin(host)
  {
    var path := "";
    if host.getEnv("GOBIN") != "" {
      path := host.getEnv("GOBIN") + "/impl";
    } else if host.getEnv("GOPATH") != "" {
      path := host.getEnv("GOPATH") + "/bin/impl";
    }

    var exist := false;
    var stat := host.lstat(path);
    if stat.None? {
      // lstatSync threw: caught
      exist := false;
    } else {
      exist := stat.value == RegularFile;
      if exist && !host.canExecute(path) {
        // accessSync threw: caught
        exist := false;
      }
    }

    binPath := if exist then path else "";
  }

  /** With `GOBIN` set, `GOPATH` plays no part in the result. */
  lemma GobinShadowsGopath(host: Host, gopath: string)
    requires host.getEnv("GOBIN") != ""
    ensures var other := host.(getEnv := (name: string) => if name == "GOPATH" then gopath else host.getEnv(name));
            ResolvedBin(other) == ResolvedBin(host)
  {
  }

  /** A candidate that is a directory, a symbolic link or not executable is refused. */
  lemma RefusedCandidates(host: Host)
    requires host.lstat(CandidatePath(host.getEnv)) != Some(RegularFile)
             || !host.canExecute(CandidatePath(host.getEnv))
    ensures ResolvedBin(host) == ""
  {
  }

  /** A resolved path always ends in the tool's name. */
  lemma ResolvedEndsInImpl(host: Host)
    requires ResolvedBin(host) != ""
    ensures var b := ResolvedBin(host);
            |b| >= 5 && b[|b| - 5..] == "/impl"
  {
    var e := host.getEnv;
    if e("GOBIN") != "" {
      assert (e("GOBIN") + "/impl")[|e("GOBIN")|..] == "/impl";
    } else {
      assert (e("GOPATH") + "/bin/impl")[|e("GOPATH")| + 4..] == "/impl";
    }
  }
}
