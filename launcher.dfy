/** The command-line entry point (bin/index.js): it finds the installed artifact
    for the host platform and runs it with the caller's arguments, or runs the
    setup script when the first argument is `setup`, and exits with the child's
    status.

    The host is a value: its platform, the package root and the set of paths that
    exist. How the spawned child ends is an input. */
module Launcher {
  import opened Outcomes
  import Postinstall

  /** The launcher's own copy of the platform map; an unknown name passes through. */
  function OsName(os: string): string {
    if os == "darwin" then "darwin"
    else if os == "linux" then "linux"
    else if os == "win32" then "windows"
    else os
  }

  /** The launcher's own copy of the architecture map; an unknown name passes through. */
  function ArchName(arch: string): string {
    if arch == "x64" then "amd64"
    else if arch == "arm64" then "arm64"
    else arch
  }

  /** The artifact name the launcher looks for. It agrees with the installer on
      every supported platform and, unlike the installer, never fails. */
  function BinaryName(os: string, arch: string): (name: string)
    ensures |name| > 5 && name[..5] == "yutu-"
    ensures Postinstall.Supported(os, arch) ==> Postinstall.FileName(os, arch) == Success(name)
    ensures name == "yutu-" + Postinstall.OsName(os).GetOr(os) + "-" + Postinstall.ArchName(arch).GetOr(arch)
                    + (if os == "win32" then ".exe" else "")
    ensures os == "win32" ==> Postinstall.HasExeSuffix(name)
  {
    var binaryName := "yutu-" + OsName(os) + "-" + ArchName(arch);
    if os == "win32" then binaryName + ".exe" else binaryName
  }

  /** `<package root>/binaries/<name>`: the place the installer writes to. */
  function BinaryPath(pkgRoot: string, name: string): (path: string)
    ensures path == Postinstall.DestPath(pkgRoot, name)
  {
    pkgRoot + "/binaries/" + name
  }

  function SetupScript(pkgRoot: string): string {
    pkgRoot + "/setup-google-cloud.js"
  }

  /** The host as the launcher sees it. */
  datatype Env = Env(os: string, arch: string, pkgRoot: string, present: set<string>)

  /** How a spawned child ends: it could not be started, or it exited, with a
      code or (killed by a signal) without one. */
  datatype Child = SpawnError(message: string) | Exited(code: Option<int>)

  datatype Command = Command(program: string, args: seq<string>)

  /** What one launch does: the child it spawns, if any, the lines it writes to
      standard error, and its exit status. */
  datatype Launch = Launch(spawned: Option<Command>, stderr: seq<string>, exitCode: int)

  /** The arguments after the interpreter and the script path. */
  function Arguments(argv: seq<string>): (args: seq<string>)
    ensures |argv| >= 2 ==> argv == argv[..2] + args
    ensures |argv| < 2 ==> args == []
  {
    if |argv| <= 2 then [] else argv[2..]
  }

  predicate IsSetup(args: seq<string>) {
    |args| > 0 && args[0] == "setup"
  }

  /** The parent's status on child exit, `code || 0`: a missing code becomes 0. */
  function ExitCode(code: Option<int>): (status: int)
    ensures code.Some? && code.value != 0 ==> status == code.value
    ensures status == 0 <==> code.None? || code.value == 0
  {
    code.GetOr(0)
  }

  /** The child's end, seen from the parent. */
  function AwaitChild(cmd: Command, what: string, child: Child): (l: Launch)
    ensures l.spawned == Some(cmd)
    ensures child.SpawnError? ==> l.exitCode == 1
    ensures child.Exited? ==> l.exitCode == ExitCode(child.code) && l.stderr == []
  {
    match child
    case SpawnError(message) => Launch(Some(cmd), ["Failed to start " + what + ": " + message], 1)
    case Exited(code) => Launch(Some(cmd), [], ExitCode(code))
  }

  predicate Spawnable(argv: seq<string>, env: Env) {
    if IsSetup(Arguments(argv)) then SetupScript(env.pkgRoot) in env.present
    else BinaryPath(env.pkgRoot, BinaryName(env.os, env.arch)) in env.present
  }

  /** One launch. `setup` as the first argument runs the setup script with node
      and never looks for the artifact; anything else runs the artifact with the
      arguments unchanged. A missing script or artifact exits with 1 before
      anything is spawned. */
  function Main(argv: seq<string>, env: Env, child: Child): (l: Launch)
    ensures l.spawned.Some? <==> Spawnable(argv, env)
    ensures IsSetup(Arguments(argv)) && l.spawned.Some? ==>
      l.spawned.value == Command("node", [SetupScript(env.pkgRoot)])
    ensures !IsSetup(Arguments(argv)) && l.spawned.Some? ==>
      l.spawned.value == Command(BinaryPath(env.pkgRoot, BinaryName(env.os, env.arch)), Arguments(argv))
    ensures l.spawned.None? ==> l.exitCode == 1 && l.stderr != []
    ensures l.spawned.Some? ==> l.exitCode == if child.SpawnError? then 1 else ExitCode(child.code)
  {
    var args := Arguments(argv);
    if IsSetup(args) then
      var setupScript := SetupScript(env.pkgRoot);
      if setupScript !in env.present then
        Launch(None, ["Setup script not found. Please reinstall the package."], 1)
      else
        AwaitChild(Command("node", [setupScript]), "setup", child)
    else
      var binaryPath := BinaryPath(env.pkgRoot, BinaryName(env.os, env.arch));
      if binaryPath !in env.present then
        Launch(None, ["Binary not found: " + binaryPath,
                      "Please ensure the package was installed correctly.",
                      "Expected binary for: " + env.os + " " + env.arch], 1)
      else
        AwaitChild(Command(binaryPath, args), "yutu", child)
  }

  /** Once the installer has put the artifact at its destination, every
      non-setup launch spawns exactly that file with the caller's arguments. */
  lemma InstalledArtifactIsLaunched(argv: seq<string>, env: Env, child: Child)
    requires Postinstall.Supported(env.os, env.arch)
    requires Postinstall.DestPath(env.pkgRoot, Postinstall.FileName(env.os, env.arch).value) in env.present
    requires !IsSetup(Arguments(argv))
    ensures Main(argv, env, child).spawned ==
      Some(Command(Postinstall.DestPath(env.pkgRoot, Postinstall.FileName(env.os, env.arch).value), Arguments(argv)))
  {
  }

  /** `setup` anywhere but first is an ordinary argument for the artifact. */
  lemma SetupElsewhereIsForwarded(argv: seq<string>, env: Env, child: Child, k: nat)
    requires 2 < k < |argv| && argv[k] == "setup" && argv[2] != "setup"
    requires Spawnable(argv, env)
    ensures Main(argv, env, child).spawned.value.program == BinaryPath(env.pkgRoot, BinaryName(env.os, env.arch))
    ensures Main(argv, env, child).spawned.value.args[k - 2] == "setup"
  {
  }

  /** The launcher's view of an installer host: every directory and file exists. */
  function HostEnv(host: Postinstall.Host, pkgRoot: string): (env: Env)
    reads host
    ensures env.present == host.dirs + host.files.Keys
  {
    Env(host.os, host.arch, pkgRoot, host.dirs + host.files.Keys)
  }

  /** An install run followed by a launch. Whenever the run got as far as a
      download attempt or found the artifact already there, the launch spawns
      the installer's destination; that includes a download that failed and
      left an empty file behind. */
  method InstallThenLaunch(host: Postinstall.Host, pkgRoot: string, release: Postinstall.Release,
                           http: map<string, Postinstall.Response>, fuel: nat, argv: seq<string>, child: Child)
    returns (outcome: Postinstall.InstallOutcome, launch: Launch)
    requires !IsSetup(Arguments(argv))
    modifies host
    ensures launch == Main(argv, HostEnv(host, pkgRoot), child)
    ensures outcome.Installed? || outcome.AlreadyPresent? || (outcome.Aborted? && !outcome.error.UnsupportedPlatform?) ==>
      && Postinstall.FileName(host.os, host.arch).Success?
      && launch.spawned == Some(Command(Postinstall.DestPath(pkgRoot, Postinstall.FileName(host.os, host.arch).value),
                                        Arguments(argv)))
  {
    outcome := host.Install(pkgRoot, release, http, fuel);
    launch := Main(argv, HostEnv(host, pkgRoot), child);
  }
}
