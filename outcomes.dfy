/**
 * How the helm client turns the finished process into a result: whether an
 * operation fails, with which error kind, and what `get_release` returns
 * (lib/helm-cli.rb).
 */
module HelmOutcomes {
  import opened Wrappers

  /**
   * How a helm process ended (Ruby's `Process::Status`): it exited with a
   * code, or a signal ended it, in which case it has no exit code.
   */
  datatype ExitStatus = Exited(code: int) | Signaled(signal: int) {

    /** `success?`: exited with code 0. */
    predicate Success()
    {
      Exited? && code == 0
    }

    /** `exitstatus`: the exit code, absent for a signalled process. */
    function ExitCode(): Option<int>
    {
      if Exited? then Some(code) else None
    }
  }

  /**
   * What one helm process did: how it ended and the lines it printed on each
   * stream. `err` stands for the lines the client forwards to the stderr sink;
   * that forwarding is not part of this model, so nothing here reads it.
   */
  datatype Run = Run(status: ExitStatus, out: seq<string>, err: seq<string>)

  /** The errors the client raises; each names the release and the exit code. */
  datatype HelmError =
    | MissingReleaseError(release: string, exitCode: Option<int>)
    | InstallError(release: string, exitCode: Option<int>)
    | UpgradeError(release: string, exitCode: Option<int>)

  /** The result of an operation that may raise one of the errors. */
  datatype Result<+T> = Ok(value: T) | Err(error: HelmError)

  /** `StringIO#puts` of one line: a newline is added unless the line ends with one. */
  function PutLine(line: string): string
  {
    if |line| > 0 && line[|line| - 1] == '\n' then line else line + "\n"
  }

  /** What `backticks` collects from the process's standard output. */
  function Capture(lines: seq<string>): string
  {
    if lines == [] then "" else PutLine(lines[0]) + Capture(lines[1..])
  }

  /** The plain concatenation of lines. */
  function Concat(lines: seq<string>): string
  {
    if lines == [] then "" else lines[0] + Concat(lines[1..])
  }

  /** Lines that already end with a newline are captured verbatim, in order. */
  lemma {:induction false} CaptureOfTerminatedLines(lines: seq<string>)
    requires forall k :: 0 <= k < |lines| ==> |lines[k]| > 0 && lines[k][|lines[k]| - 1] == '\n'
    ensures Capture(lines) == Concat(lines)
  {
    if lines != [] {
      CaptureOfTerminatedLines(lines[1..]);
    }
  }

  /** Captured output is empty or ends with a newline, and never shorter than the lines. */
  lemma {:induction false} CaptureEndsWithNewline(lines: seq<string>)
    ensures var s := Capture(lines);
      (s == "" <==> lines == []) && (s != "" ==> s[|s| - 1] == '\n') && |s| >= |Concat(lines)|
  {
    if lines != [] {
      CaptureEndsWithNewline(lines[1..]);
    }
  }

  /** `puts` keeps the whole line and adds at most one newline after it. */
  lemma PutLineKeepsLine(line: string)
    ensures var p := PutLine(line);
      && p[..|line|] == line
      && (p == line || p == line + "\n")
      && p != "" && p[|p| - 1] == '\n'
  {
  }

  /** Capturing one line is `puts` of that line. */
  lemma CaptureOne(line: string)
    ensures Capture([line]) == PutLine(line)
  {
    assert [line][1..] == [];
  }

  /** Capturing two runs of lines is capturing each, one after the other. */
  lemma {:induction false} CaptureAppend(a: seq<string>, b: seq<string>)
    ensures Capture(a + b) == Capture(a) + Capture(b)
  {
    if a == [] {
      assert a + b == b;
    } else {
      assert (a + b)[0] == a[0];
      assert (a + b)[1..] == a[1..] + b;
      CaptureAppend(a[1..], b);
    }
  }

  /** `get_release` after the process: its captured stdout, or a missing-release error. */
  function GetReleaseOutcome(release: string, run: Run): (r: Result<string>)
    ensures r.Ok? <==> run.status.Success()
    ensures r.Ok? ==> r.value == Capture(run.out)
    ensures r.Err? ==> r.error == MissingReleaseError(release, run.status.ExitCode())
  {
    if run.status.Success() then Ok(Capture(run.out))
    else Err(MissingReleaseError(release, run.status.ExitCode()))
  }

  /**
   * `release_exists?` once `get_release` has finished with `r` and recorded
   * `status`: rescues exactly the missing-release error and lets any other
   * error through.
   */
  function RescueMissingRelease(r: Result<string>, status: ExitStatus): Result<bool>
  {
    match r
    case Ok(_) => Ok(status.ExitCode() == Some(0))
    case Err(e) => if e.MissingReleaseError? then Ok(false) else Err(e)
  }

  /** `release_exists?` answers whether helm exited with code 0, and never raises. */
  lemma ReleaseExistsIffSuccess(release: string, run: Run)
    ensures RescueMissingRelease(GetReleaseOutcome(release, run), run.status) == Ok(run.status.Success())
  {
  }

  /** The rescue catches only the missing-release kind. */
  lemma RescueKeepsOtherErrors(r: Result<string>, status: ExitStatus)
    ensures r.Err? && !r.error.MissingReleaseError? ==> RescueMissingRelease(r, status) == Err(r.error)
    ensures r.Err? && r.error.MissingReleaseError? ==> RescueMissingRelease(r, status) == Ok(false)
  {
  }

  /** `install_chart` after the process: fails with InstallError unless helm succeeded. */
  function InstallOutcome(release: string, status: ExitStatus): (r: Result<()>)
    ensures r.Ok? <==> status.Success()
    ensures r.Err? ==> r.error == InstallError(release, status.ExitCode())
  {
    if status.Success() then Ok(()) else Err(InstallError(release, status.ExitCode()))
  }

  /**
   * `upgrade_chart` after the process. The source raises InstallError here too
   * (lib/helm-cli.rb:78): the UpgradeError kind is declared but never raised.
   */
  function UpgradeOutcome(release: string, status: ExitStatus): (r: Result<()>)
    ensures r.Ok? <==> status.Success()
    ensures r.Err? ==> r.error == InstallError(release, status.ExitCode())
  {
    if status.Success() then Ok(()) else Err(InstallError(release, status.ExitCode()))
  }

  /** With an exit code: install fails exactly when the code is non-zero, and the error carries it. */
  lemma InstallFailsIffNonZero(release: string, code: int)
    ensures InstallOutcome(release, Exited(code)).Err? <==> code != 0
    ensures code != 0 ==> InstallOutcome(release, Exited(code)) == Err(InstallError(release, Some(code)))
  {
  }

  /** Upgrade fails exactly as install does, so its failures carry the install kind. */
  lemma UpgradeFailsAsInstall(release: string, status: ExitStatus)
    ensures UpgradeOutcome(release, status) == InstallOutcome(release, status)
    ensures UpgradeOutcome(release, status).Err? ==> !UpgradeOutcome(release, status).error.UpgradeError?
  {
  }

  /** A missing release is reported with the exit code helm gave. */
  lemma MissingReleaseCarriesCode(release: string, code: int, out: seq<string>, err: seq<string>)
    ensures code != 0 ==> GetReleaseOutcome(release, Run(Exited(code), out, err)) == Err(MissingReleaseError(release, Some(code)))
    ensures code == 0 ==> GetReleaseOutcome(release, Run(Exited(code), out, err)) == Ok(Capture(out))
  {
  }
}
