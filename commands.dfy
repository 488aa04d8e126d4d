/**
 * The argument vectors the helm client hands to the `helm` executable
 * (lib/helm-cli.rb), and the space-joined command string the client
 * actually launches.
 */
module HelmCommands {

  /** What a client is created with: the cluster-credentials file and the executable. */
  datatype Config = Config(kubeconfigPath: string, executable: string)

  /** One entry of a chart's `params` mapping, taken in the mapping's iteration order. */
  datatype Param = Param(key: string, value: string)

  /** The commands the client can launch, one per public operation. */
  datatype Command =
    | AddRepo(name: string, url: string)
    | UpdateRepos
    | GetRelease(release: string, namespace: string)
    | InstallChart(chart: string, release: string, version: string, namespace: string, params: seq<Param>)
    | UpgradeChart(chart: string, release: string, version: string, namespace: string, params: seq<Param>)

  /** The namespace used when a caller gives none. */
  const DefaultNamespace: string := "default"

  /** The prefix of every command: the executable and the credentials file. */
  function BaseCmd(cfg: Config): seq<string>
  {
    [cfg.executable, "--kubeconfig", cfg.kubeconfigPath]
  }

  /** The `key=value` argument that follows one `--set`. */
  function Assignment(p: Param): string
  {
    p.key + "=" + p.value
  }

  /** One `--set key=value` pair per parameter, in order. */
  function SetFlags(params: seq<Param>): seq<string>
  {
    if params == [] then [] else ["--set", Assignment(params[0])] + SetFlags(params[1..])
  }

  /** The `key=value` arguments of the parameters, in order. */
  function Assignments(params: seq<Param>): seq<string>
  {
    if params == [] then [] else [Assignment(params[0])] + Assignments(params[1..])
  }

  /** Reads back the arguments of a run of leading `--set` flags. */
  function SetArguments(flags: seq<string>): seq<string>
  {
    if |flags| >= 2 && flags[0] == "--set" then [flags[1]] + SetArguments(flags[2..]) else []
  }

  /** The shape shared by install and upgrade, with the verb as a parameter. */
  function ChartArgv(cfg: Config, verb: string, chart: string, release: string, version: string,
                     namespace: string, params: seq<Param>): seq<string>
  {
    BaseCmd(cfg) + [verb, release, chart] + ["--version", version] + ["-n", namespace] + SetFlags(params)
  }

  /** The argument vector of each command. */
  function Argv(cfg: Config, c: Command): seq<string>
  {
    match c
    case AddRepo(name, url) => BaseCmd(cfg) + ["repo", "add", name, url]
    case UpdateRepos => BaseCmd(cfg) + ["repo", "update"]
    case GetRelease(release, namespace) => BaseCmd(cfg) + ["get", "all", release, "-n", namespace]
    case InstallChart(chart, release, version, namespace, params) =>
      ChartArgv(cfg, "install", chart, release, version, namespace, params)
    case UpgradeChart(chart, release, version, namespace, params) =>
      ChartArgv(cfg, "upgrade", chart, release, version, namespace, params)
  }

  /**
   * Builds the install or upgrade vector the way the client does: the fixed
   * part first, then one `--set` pair appended per parameter.
   */
  method BuildChartArgv(cfg: Config, verb: string, chart: string, release: string, version: string,
                        namespace: string, params: seq<Param>) returns (cmd: seq<string>)
    ensures cmd == ChartArgv(cfg, verb, chart, release, version, namespace, params)
  {
    cmd := BaseCmd(cfg) + [verb, release, chart];
    cmd := cmd + ["--version", version];
    cmd := cmd + ["-n", namespace];
    ghost var fixed := cmd;
    var i := 0;
    while i < |params|
      invariant 0 <= i <= |params|
      invariant cmd == fixed + SetFlags(params[..i])
    {
      SetFlagsSnoc(params[..i], params[i]);
      assert params[..i + 1] == params[..i] + [params[i]];
      cmd := cmd + ["--set", Assignment(params[i])];
      i := i + 1;
    }
    assert params[..|params|] == params;
  }

  /** Appending a parameter appends exactly its own `--set` pair. */
  lemma {:induction false} SetFlagsSnoc(params: seq<Param>, p: Param)
    ensures SetFlags(params + [p]) == SetFlags(params) + ["--set", Assignment(p)]
  {
    if params == [] {
      assert params + [p] == [p];
    } else {
      assert (params + [p])[1..] == params[1..] + [p];
      SetFlagsSnoc(params[1..], p);
    }
  }

  /** Two flag arguments per parameter. */
  lemma {:induction false} SetFlagsLength(params: seq<Param>)
    ensures |SetFlags(params)| == 2 * |params|
  {
    if params != [] {
      SetFlagsLength(params[1..]);
    }
  }

  /** Parameter i becomes the `--set` at position 2i and its `key=value` at 2i+1. */
  lemma {:induction false} SetFlagsAt(params: seq<Param>, i: int)
    requires 0 <= i < |params|
    ensures |SetFlags(params)| == 2 * |params|
    ensures SetFlags(params)[2 * i] == "--set"
    ensures SetFlags(params)[2 * i + 1] == Assignment(params[i])
  {
    SetFlagsLength(params);
    if i > 0 {
      SetFlagsAt(params[1..], i - 1);
    }
  }

  /** The `key=value` arguments can be read back from the flags, in order. */
  lemma {:induction false} SetArgumentsOfSetFlags(params: seq<Param>)
    ensures SetArguments(SetFlags(params)) == Assignments(params)
  {
    if params != [] {
      var flags := SetFlags(params);
      assert flags[2..] == SetFlags(params[1..]);
      SetArgumentsOfSetFlags(params[1..]);
    }
  }

  /** Every command starts with the executable and `--kubeconfig <path>`. */
  lemma ArgvStartsWithBase(cfg: Config, c: Command)
    ensures |Argv(cfg, c)| > 3
    ensures Argv(cfg, c)[..3] == [cfg.executable, "--kubeconfig", cfg.kubeconfigPath]
  {
  }

  /**
   * An install vector is the base, the verb, release, chart, version and
   * namespace, then the parameters' `--set` flags: 10 + 2n arguments, and
   * none beyond the fixed ten when there are no parameters.
   */
  lemma InstallArgvShape(cfg: Config, chart: string, release: string, version: string,
                         namespace: string, params: seq<Param>)
    ensures var argv := Argv(cfg, InstallChart(chart, release, version, namespace, params));
      && |argv| == 10 + 2 * |params|
      && argv[..10] == BaseCmd(cfg) + ["install", release, chart, "--version", version, "-n", namespace]
      && argv[10..] == SetFlags(params)
      && SetArguments(argv[10..]) == Assignments(params)
      && (params == [] ==> |argv| == 10)
  {
    var argv := Argv(cfg, InstallChart(chart, release, version, namespace, params));
    SetFlagsLength(params);
    SetArgumentsOfSetFlags(params);
    assert argv == (BaseCmd(cfg) + ["install", release, chart, "--version", version, "-n", namespace]) + SetFlags(params);
  }

  /** Upgrade launches the install vector with `upgrade` in place of `install` at index 3. */
  lemma UpgradeArgvIsInstallArgvWithVerb(cfg: Config, chart: string, release: string, version: string,
                                         namespace: string, params: seq<Param>)
    ensures var install := Argv(cfg, InstallChart(chart, release, version, namespace, params));
      var upgrade := Argv(cfg, UpgradeChart(chart, release, version, namespace, params));
      && |install| == |upgrade|
      && install[3] == "install" && upgrade[3] == "upgrade"
      && upgrade == install[3 := "upgrade"]
  {
  }

  /** Ruby's `Array#join(' ')`: the command string handed to the process launcher. */
  function Join(args: seq<string>): string
  {
    if args == [] then ""
    else if |args| == 1 then args[0]
    else args[0] + " " + Join(args[1..])
  }

  /** The fields of a string cut at every space (empty fields kept). */
  function Split(s: string): (fields: seq<string>)
    ensures |fields| >= 1
    ensures forall w :: w in fields ==> ' ' !in w
  {
    if s == [] then [""]
    else
      var rest := Split(s[1..]);
      if s[0] == ' ' then [""] + rest
      else [[s[0]] + rest[0]] + rest[1..]
  }

  lemma {:induction false} SplitWord(a: string)
    requires ' ' !in a
    ensures Split(a) == [a]
  {
    if a != [] {
      SplitWord(a[1..]);
      assert a[0] != ' ';
      assert [a[0]] + a[1..] == a;
    }
  }

  lemma {:induction false} SplitWordThenRest(a: string, t: string)
    requires ' ' !in a
    ensures Split(a + " " + t) == [a] + Split(t)
  {
    var s := a + " " + t;
    if a == [] {
      assert s[1..] == t;
    } else {
      assert s[1..] == a[1..] + " " + t;
      SplitWordThenRest(a[1..], t);
      assert [a[0]] + a[1..] == a;
    }
  }

  /** When no argument contains a space, the joined string still determines the vector. */
  lemma {:induction false} SplitJoin(args: seq<string>)
    requires |args| > 0
    requires forall k :: 0 <= k < |args| ==> ' ' !in args[k]
    ensures Split(Join(args)) == args
  {
    if |args| == 1 {
      SplitWord(args[0]);
    } else {
      SplitWordThenRest(args[0], Join(args[1..]));
      SplitJoin(args[1..]);
    }
  }

  lemma {:induction false} JoinWithFirstPrefixed(a: string, xs: seq<string>)
    requires |xs| >= 1
    ensures Join([a + xs[0]] + xs[1..]) == a + Join(xs)
  {
    var ys := [a + xs[0]] + xs[1..];
    assert ys[0] == a + xs[0];
    assert ys[1..] == xs[1..];
    if |xs| > 1 {
      assert Join(ys) == ys[0] + " " + Join(ys[1..]);
      assert Join(xs) == xs[0] + " " + Join(xs[1..]);
    }
  }

  /** Joining the fields again gives back the string, so Split loses nothing. */
  lemma {:induction false} JoinSplit(s: string)
    ensures Join(Split(s)) == s
  {
    if s != [] {
      var rest := Split(s[1..]);
      JoinSplit(s[1..]);
      if s[0] == ' ' {
        assert Split(s) == [""] + rest;
        assert ([""] + rest)[1..] == rest;
      } else {
        JoinWithFirstPrefixed([s[0]], rest);
      }
      assert [s[0]] + s[1..] == s;
    }
  }

  /** An argument holding a space (a release name, a parameter value) does not survive the join. */
  lemma ArgumentWithSpaceIsLost(args: seq<string>, k: int)
    requires 0 <= k < |args| && ' ' in args[k]
    ensures Split(Join(args)) != args
  {
    assert args[k] in args;
  }
}
