/**
 * The setup command: install the tool's dependencies with the platform's
 * package manager, move the binary onto the PATH and extend the shell's
 * start-up file.
 *
 * The environment (operating system, $SHELL, $HOME, which commands are on the
 * PATH, whether Oh My Zsh is found before .zshrc is sourced) comes in as an `Env`; what setup does
 * to the system comes out as a trace of effects, in the order they happen.
 */
module Setup {
  import opened GoStd

  /** getShellConfig: the start-up file of the user's shell, zsh taking precedence, or "". */
  function GetShellConfig(shell: string, home: string): (path: string)
    ensures Contains(shell, "zsh") ==> path == home + "/.zshrc"
    ensures !Contains(shell, "zsh") && Contains(shell, "bash") ==> path == home + "/.bashrc"
    ensures path == "" <==> !Contains(shell, "zsh") && !Contains(shell, "bash")
  {
    if Contains(shell, "zsh") then home + "/.zshrc"
    else if Contains(shell, "bash") then home + "/.bashrc"
    else ""
  }

  /** The file system as seen by appendToFile: path to contents. */
  type Files = map<string, string>

  /** How appendToFile went; after a failed write the file's contents are not known. */
  datatype AppendResult = OpenFailed | WriteFailed | Appended(files: Files)

  /**
   * appendToFile: open an existing file for appending and write the line
   * between two newlines; a file that cannot be opened is left alone. Whether
   * the write succeeds once the file is open comes in as `writeOk`.
   */
  function AppendToFile(files: Files, path: string, line: string, writeOk: bool): (r: AppendResult)
    ensures r.OpenFailed? <==> path !in files
    ensures r.WriteFailed? <==> path in files && !writeOk
    ensures r.Appended? ==>
              && r.files.Keys == files.Keys
              && r.files[path] == files[path] + "\n" + line + "\n"
              && (forall p :: p in files && p != path ==> r.files[p] == files[p])
  {
    if path !in files then OpenFailed
    else if !writeOk then WriteFailed
    else Appended(files[path := files[path] + "\n" + line + "\n"])
  }

  datatype PackageManager = Brew | Apt

  function InstallCommand(pm: PackageManager, pkg: string): Command {
    match pm
    case Brew => Command("brew", ["install", pkg])
    case Apt => Command("sudo", ["apt", "install", "-y", pkg])
  }

  const MacPackages: seq<string> := ["git", "yt-dlp", "ffmpeg", "wget", "zsh", "font-hack-nerd-font"]
  const LinuxPackages: seq<string> := ["git", "yt-dlp", "ffmpeg", "wget", "zsh", "fonts-powerline"]

  const HomebrewInstaller: Command :=
    Command("/bin/bash", ["-c", "$(curl -fsSL https://raw.githubusercontent.com/Homebrew/install/HEAD/install.sh)"])
  const PathExport: string := "export PATH=\"/usr/local/bin:$PATH\""
  const SourceZshrc: Command := Command("zsh", ["-c", "sleep 2 && source ~/.zshrc"])

  /** What setup does to the system, one step at a time. */
  datatype Effect =
    | Reset                                // resetInstallation
    | Exec(command: Command)               // an external process
    | InstallP10K                          // installP10K
    | MoveBinary                           // moveBinary
    | RestoreZshConfig                     // restoreZshConfig
    | AppendLine(path: string, line: string)  // appendToFile
    | Exit(code: int)                      // os.Exit
    | Complete                             // the closing message

  /**
   * The environment setup runs in. `ohMyZshInstalled` is the outcome of the
   * late check for Oh My Zsh in configureShell, made after installP10K has
   * tried to install it and, with --reset, after resetInstallation removed
   * it; it does not describe the system at launch.
   */
  datatype Env = Env(goos: string, shell: string, home: string,
                     hasCommand: string -> bool, ohMyZshInstalled: bool)

  /** The packages whose command is not on the PATH, in list order. */
  function Missing(packages: seq<string>, hasCommand: string -> bool): seq<string> {
    if packages == [] then []
    else
      var pkg := packages[|packages| - 1];
      Missing(packages[..|packages| - 1], hasCommand) + (if hasCommand(pkg) then [] else [pkg])
  }

  /** A package is installed exactly when it is listed and its command is missing. */
  lemma {:induction false} MissingMembers(packages: seq<string>, hasCommand: string -> bool, pkg: string)
    ensures pkg in Missing(packages, hasCommand) <==> pkg in packages && !hasCommand(pkg)
    decreases |packages|
  {
    if packages != [] {
      var init := packages[..|packages| - 1];
      assert packages == init + [packages[|packages| - 1]];
      MissingMembers(init, hasCommand, pkg);
    }
  }

  /** Missing keeps the list's order: filtering a concatenation filters each part. */
  lemma {:induction false} MissingAppend(a: seq<string>, b: seq<string>, hasCommand: string -> bool)
    ensures Missing(a + b, hasCommand) == Missing(a, hasCommand) + Missing(b, hasCommand)
    decreases |b|
  {
    if b == [] {
      assert a + b == a;
    } else {
      assert (a + b)[..|a + b| - 1] == a + b[..|b| - 1];
      MissingAppend(a, b[..|b| - 1], hasCommand);
    }
  }

  function InstallCommands(pm: PackageManager, packages: seq<string>): (effects: seq<Effect>)
    ensures |effects| == |packages|
  {
    seq(|packages|, i requires 0 <= i < |packages| => Exec(InstallCommand(pm, packages[i])))
  }

  /** The package loop: one install command for each package whose command is missing. */
  method InstallPackages(pm: PackageManager, packages: seq<string>, hasCommand: string -> bool)
    returns (effects: seq<Effect>)
    ensures effects == InstallCommands(pm, Missing(packages, hasCommand))
  {
    effects := [];
    for i := 0 to |packages|
      invariant effects == InstallCommands(pm, Missing(packages[..i], hasCommand))
    {
      var pkg := packages[i];
      assert packages[..i + 1][..i] == packages[..i];
      if !hasCommand(pkg) {
        effects := effects + [Exec(InstallCommand(pm, pkg))];
      }
    }
    assert packages[..|packages|] == packages;
  }

  // MacSteps, LinuxSteps and SetupTrace below are the specifications that the
  // methods InstallMacDependencies, InstallLinuxDependencies and RunSetup are proved against.

  /** installMacDependencies: Homebrew when it is missing, then the missing packages. */
  function MacSteps(env: Env): seq<Effect> {
    (if env.hasCommand("brew") then [] else [Exec(HomebrewInstaller)])
    + InstallCommands(Brew, Missing(MacPackages, env.hasCommand)) + [InstallP10K]
  }

  /** installLinuxDependencies once apt has been found. */
  function LinuxSteps(env: Env): seq<Effect> {
    InstallCommands(Apt, Missing(LinuxPackages, env.hasCommand)) + [InstallP10K]
  }

  /** configureShell: nothing at all when no start-up file is known. */
  function ConfigureShell(env: Env): (effects: seq<Effect>)
    ensures effects == [] <==> GetShellConfig(env.shell, env.home) == ""
    // with a start-up file: restore .zshrc, extend PATH in that very file, install the theme,
    // and source .zshrc only when Oh My Zsh is in place
    ensures var config := GetShellConfig(env.shell, env.home);
      config != "" ==>
        && |effects| == (if env.ohMyZshInstalled then 4 else 3)
        && effects[0] == RestoreZshConfig
        && effects[1] == AppendLine(config, PathExport)
        && effects[2] == InstallP10K
        && (Exec(SourceZshrc) in effects <==> env.ohMyZshInstalled)
  {
    var config := GetShellConfig(env.shell, env.home);
    if config == "" then []
    else
      [RestoreZshConfig, AppendLine(config, PathExport), InstallP10K]
      + (if env.ohMyZshInstalled then [Exec(SourceZshrc)] else [])
  }

  /** Everything after the dependencies: move the binary, configure the shell, report. */
  function Finish(env: Env): seq<Effect> {
    [MoveBinary] + ConfigureShell(env) + [Complete]
  }

  /** The effects of runSetup, in order. */
  function SetupTrace(env: Env, reset: bool): seq<Effect> {
    (if reset then [Reset] else [])
    + (if env.goos == "darwin" then MacSteps(env) + Finish(env)
       else if env.goos == "linux" then
         (if env.hasCommand("apt") then LinuxSteps(env) + Finish(env) else [Exit(1)])
       else [Exit(1)])
  }

  method InstallMacDependencies(env: Env) returns (effects: seq<Effect>)
    ensures effects == MacSteps(env)
  {
    effects := [];
    if !env.hasCommand("brew") {
      effects := effects + [Exec(HomebrewInstaller)];
    }
    var installs := InstallPackages(Brew, MacPackages, env.hasCommand);
    effects := effects + installs + [InstallP10K];
  }

  /** Returns the effects and whether the process exited for want of apt. */
  method InstallLinuxDependencies(env: Env) returns (effects: seq<Effect>, exited: bool)
    ensures exited <==> !env.hasCommand("apt")
    ensures effects == if exited then [Exit(1)] else LinuxSteps(env)
  {
    if !env.hasCommand("apt") {
      return [Exit(1)], true;
    }
    var installs := InstallPackages(Apt, LinuxPackages, env.hasCommand);
    effects, exited := installs + [InstallP10K], false;
  }

  /** runSetup: optional reset, dependencies for the OS (or exit), then the shared steps. */
  method RunSetup(env: Env, reset: bool) returns (trace: seq<Effect>)
    ensures trace == SetupTrace(env, reset)
  {
    trace := [];
    if reset {
      trace := trace + [Reset];
    }
    if env.goos == "darwin" {
      var steps := InstallMacDependencies(env);
      trace := trace + steps;
    } else if env.goos == "linux" {
      var steps, exited := InstallLinuxDependencies(env);
      trace := trace + steps;
      if exited {
        return;
      }
    } else {
      trace := trace + [Exit(1)];
      return;
    }
    trace := trace + Finish(env);
  }

  /** The reset happens exactly when asked for, and before anything else. */
  lemma ResetFirstAndOnlyOnRequest(env: Env, reset: bool)
    ensures var trace := SetupTrace(env, reset);
      && (Reset in trace <==> reset)
      && (reset ==> trace[0] == Reset)
      && (forall i :: 0 < i < |trace| ==> trace[i] != Reset)
  {
    var trace := SetupTrace(env, reset);
    var body := if reset then trace[1..] else trace;
    assert trace == (if reset then [Reset] else []) + body;
    assert Reset !in body;
  }

  /** On an unsupported OS setup exits with status 1 before moving the binary or touching the shell. */
  lemma UnsupportedOsExitsEarly(env: Env, reset: bool)
    requires env.goos != "darwin" && env.goos != "linux"
    ensures var trace := SetupTrace(env, reset);
      && trace[|trace| - 1] == Exit(1)
      && MoveBinary !in trace && RestoreZshConfig !in trace
      && (forall i :: 0 <= i < |trace| ==> !trace[i].Exec? && !trace[i].AppendLine?)
  {
  }

  /** On Linux without apt setup exits with status 1 before installing any package. */
  lemma LinuxWithoutAptInstallsNothing(env: Env, reset: bool)
    requires env.goos == "linux" && !env.hasCommand("apt")
    ensures var trace := SetupTrace(env, reset);
      && trace[|trace| - 1] == Exit(1)
      && (forall i :: 0 <= i < |trace| ==> !trace[i].Exec?)
      && MoveBinary !in trace
  {
  }

  /** No step of `effects` exits or reports completion. */
  predicate Ongoing(effects: seq<Effect>) {
    forall i :: 0 <= i < |effects| ==> !effects[i].Exit? && effects[i] != Complete
  }

  lemma OngoingAppend(a: seq<Effect>, b: seq<Effect>)
    requires Ongoing(a) && Ongoing(b)
    ensures Ongoing(a + b)
  {
  }

  /** Installing dependencies and configuring the shell never exit and never report completion. */
  lemma MiddleStepsOngoing(env: Env)
    ensures Ongoing(MacSteps(env)) && Ongoing(LinuxSteps(env)) && Ongoing(ConfigureShell(env))
  {
    var brew := if env.hasCommand("brew") then [] else [Exec(HomebrewInstaller)];
    var macInstalls := InstallCommands(Brew, Missing(MacPackages, env.hasCommand));
    OngoingAppend(brew, macInstalls);
    OngoingAppend(brew + macInstalls, [InstallP10K]);
    OngoingAppend(InstallCommands(Apt, Missing(LinuxPackages, env.hasCommand)), [InstallP10K]);
  }

  /** Setup either exits with status 1 as its last step, or completes; never both. */
  lemma {:induction false} ExitIsFinal(env: Env, reset: bool)
    ensures var trace := SetupTrace(env, reset);
      && |trace| > 0
      && Ongoing(trace[..|trace| - 1])
      && (trace[|trace| - 1] == Complete <==>
            env.goos == "darwin" || (env.goos == "linux" && env.hasCommand("apt")))
      && (trace[|trace| - 1] != Complete ==> trace[|trace| - 1] == Exit(1))
  {
    var trace := SetupTrace(env, reset);
    var pre := if reset then [Reset] else [];
    if env.goos == "darwin" || (env.goos == "linux" && env.hasCommand("apt")) {
      var deps := if env.goos == "darwin" then MacSteps(env) else LinuxSteps(env);
      var shell := ConfigureShell(env);
      MiddleStepsOngoing(env);
      assert trace == pre + deps + [MoveBinary] + shell + [Complete];
      assert trace[..|trace| - 1] == pre + deps + [MoveBinary] + shell;
      OngoingAppend(pre, deps);
      OngoingAppend(pre + deps, [MoveBinary]);
      OngoingAppend(pre + deps + [MoveBinary], shell);
    } else {
      assert trace == pre + [Exit(1)];
      assert trace[..|trace| - 1] == pre;
    }
  }
}
