/** The session bodies of noxfile.py and the order in which they issue
    commands. The `nox` session object is modelled only as far as these bodies
    use it: its positional tokens and its `run`, which here appends the
    argument vector to a trace instead of executing it. Each body is a method
    over that object, proved to append exactly the trace that a specification
    function gives for the session's tokens. */
module Sessions {
  import opened Commands

  type Command = seq<string>
  type Trace = seq<Command>

  /** The part of `nox.Session` the bodies use. */
  class Session {
    const posargs: seq<string>
    var trace: Trace

    constructor (posargs: seq<string>)
      ensures this.posargs == posargs && trace == []
    {
      this.posargs := posargs;
      trace := [];
    }

    /** `session.run(*command)`, with execution left abstract. */
    method Run(command: Command)
      modifies this
      ensures trace == old(trace) + [command]
    {
      trace := trace + [command];
    }
  }

  /** Appending four traces one after another appends their concatenation. */
  lemma AppendFour<T>(t: seq<T>, a: seq<T>, b: seq<T>, c: seq<T>, d: seq<T>)
    ensures t + a + b + c + d == t + (a + b + c + d)
  {
  }

  /** Four traces concatenated, regrouped as two halves. */
  lemma Halves<T>(a: seq<T>, b: seq<T>, c: seq<T>, d: seq<T>)
    ensures a + b + c + d == (a + b) + (c + d)
  {
  }

  /** The four parts of a concatenation are recovered by slicing it. */
  lemma Quarters<T>(a: seq<T>, b: seq<T>, c: seq<T>, d: seq<T>)
    ensures var s := a + b + c + d;
            s[..|a|] == a && s[|a|..|a| + |b|] == b &&
            s[|a| + |b|..|a| + |b| + |c|] == c && s[|a| + |b| + |c|..] == d
  {
    var s := a + b + c + d;
    assert s == a + (b + (c + d));
    assert s[|a|..] == b + (c + d);
    assert s[|a| + |b|..] == c + d;
  }

  function PipInstall(package: string): Command {
    ["pip", "install", "--upgrade", "--quiet", package]
  }

  const SPHINX_BUILD: Command := ["sphinx-build", "docs/source", "docs/build"]
  const MAKE_CLEAN: Command := ["make", "clean"]

  const BADGES_TRACE: Trace := [
    ["genbadge", "coverage", "-l", "-i", "reports/coverage.xml", "-o", "images/coverage.svg"],
    ["genbadge", "tests", "-l", "-i", "reports/junit.xml", "-o", "images/tests.svg"]
  ]

  // ------------------------------------------------------ traces per session

  /** The linter command, preceded by the installation of its program. */
  function LinterTrace(posargs: seq<string>): (t: Trace)
    ensures |t| == 2 && t[1] == LinterCommand(posargs) && |t[1]| >= 1 && t[0] == PipInstall(t[1][0])
  {
    [PipInstall("ruff"), LinterCommand(posargs)]
  }

  /** The codespell command, preceded by the installation of its program. */
  function CodespellTrace(posargs: seq<string>): (t: Trace)
    ensures |t| == 2 && t[1] == CodespellCommand(posargs) && t[0] == PipInstall(t[1][0])
  {
    [PipInstall("codespell"), CodespellCommand(posargs)]
  }

  /** The codespell session, then the same codespell vector over `docs/source`. */
  function SpellcheckTrace(posargs: seq<string>): (t: Trace)
    ensures |t| == 3 && t[..2] == CodespellTrace(posargs)
    ensures |t[2]| >= 1 && t[2][..|t[2]| - 1] == CodespellTrace(posargs)[1] && t[2][|t[2]| - 1] == "docs/source"
  {
    CodespellTrace(posargs) + [CodespellCommand(posargs) + ["docs/source"]]
  }

  /** The tests session installs nothing itself: one pytest command. */
  function TestsTrace(posargs: seq<string>): (t: Trace)
    ensures |t| == 1 && t[0] == TestsCommand(posargs) && t[0][0] == "pytest"
  {
    [TestsCommand(posargs)]
  }

  /** `make clean` first when `clean` is given, then spellcheck, then sphinx. */
  function DocsTrace(posargs: seq<string>): (t: Trace)
    ensures |t| == (if "clean" in posargs then 5 else 4) && t[|t| - 1] == SPHINX_BUILD
  {
    (if "clean" in posargs then [MAKE_CLEAN] else []) + SpellcheckTrace(posargs) + [SPHINX_BUILD]
  }

  /** The docs trace ends with the spellcheck trace and then the sphinx
      build, and holds one command more, `make clean` at its start, exactly
      when `clean` is given. */
  lemma DocsEndsWithSpellcheckThenSphinx(posargs: seq<string>)
    ensures var t := DocsTrace(posargs);
            |t| >= 4 && t[|t| - 4..] == SpellcheckTrace(posargs) + [SPHINX_BUILD] &&
            ("clean" in posargs <==> |t| == 5) &&
            ("clean" in posargs ==> t[0] == MAKE_CLEAN)
  {
    var front: Trace := if "clean" in posargs then [MAKE_CLEAN] else [];
    var rest := SpellcheckTrace(posargs) + [SPHINX_BUILD];
    assert DocsTrace(posargs) == front + rest;
    assert (front + rest)[|front|..] == rest;
  }

  /** Linter, spellcheck, tests, badges: in that order, on the same tokens. */
  function PreCommitTrace(posargs: seq<string>): (t: Trace)
    ensures |t| == 8
    ensures t[..2] == LinterTrace(posargs) && t[2..5] == SpellcheckTrace(posargs)
    ensures t[5..6] == TestsTrace(posargs) && t[6..] == BADGES_TRACE
  {
    Quarters(LinterTrace(posargs), SpellcheckTrace(posargs), TestsTrace(posargs), BADGES_TRACE);
    LinterTrace(posargs) + SpellcheckTrace(posargs) + TestsTrace(posargs) + BADGES_TRACE
  }

  // --------------------------------------------------------- session bodies

  /** `run_ruff` */
  method RunLinter(session: Session)
    modifies session
    ensures session.trace == old(session.trace) + LinterTrace(session.posargs)
  {
    session.Run(PipInstall("ruff"));
    var command := BuildLinterCommand(session.posargs);
    session.Run(command);
  }

  /** `run_codespell` */
  method RunCodespell(session: Session)
    modifies session
    ensures session.trace == old(session.trace) + CodespellTrace(session.posargs)
  {
    session.Run(PipInstall("codespell"));
    var command := BuildCodespellCommand(session.posargs);
    session.Run(command);
  }

  /** `run_spellcheck` */
  method RunSpellcheck(session: Session)
    modifies session
    ensures session.trace == old(session.trace) + SpellcheckTrace(session.posargs)
  {
    RunCodespell(session);
    var command := BuildCodespellCommand(session.posargs);
    session.Run(command + ["docs/source"]);
  }

  /** `run_pytest` */
  method RunTests(session: Session)
    modifies session
    ensures session.trace == old(session.trace) + TestsTrace(session.posargs)
  {
    var command := BuildTestsCommand(session.posargs);
    session.Run(command);
  }

  /** `run_genbadge` */
  method RunBadges(session: Session)
    modifies session
    ensures session.trace == old(session.trace) + BADGES_TRACE
  {
    session.Run(BADGES_TRACE[0]);
    session.Run(BADGES_TRACE[1]);
  }

  /** `run_sphinx`; of the `clean` branch only its `make clean` is recorded. */
  method RunDocs(session: Session)
    modifies session
    ensures session.trace == old(session.trace) + DocsTrace(session.posargs)
  {
    if "clean" in session.posargs {
      session.Run(MAKE_CLEAN);
    }
    RunSpellcheck(session);
    session.Run(SPHINX_BUILD);
  }

  /** `run_pre_commit` */
  method RunPreCommit(session: Session)
    modifies session
    ensures session.trace == old(session.trace) + PreCommitTrace(session.posargs)
  {
    ghost var before := session.trace;
    ghost var posargs := session.posargs;
    RunLinter(session);
    RunSpellcheck(session);
    RunTests(session);
    RunBadges(session);
    AppendFour(before, LinterTrace(posargs), SpellcheckTrace(posargs), TestsTrace(posargs), BADGES_TRACE);
  }

  // ------------------------------------------------------------- fail-fast

  /** The commands `nox` actually starts from `trace`, on the assumption that
      it aborts the session at the first command that fails and that the
      commands in `failing` are exactly those that fail. The last command
      started is then the failing one, and the failure is what the session
      reports. */
  function Executed(trace: Trace, failing: set<Command>): (r: Trace)
    ensures |r| <= |trace| && r == trace[..|r|]
    ensures forall i :: 0 <= i < |r| - 1 ==> r[i] !in failing
    ensures |r| < |trace| ==> r != [] && r[|r| - 1] in failing
    ensures (forall i :: 0 <= i < |trace| ==> trace[i] !in failing) ==> r == trace
  {
    if trace == [] then []
    else if trace[0] in failing then [trace[0]]
    else [trace[0]] + Executed(trace[1..], failing)
  }

  /** Once a command of `a` fails, nothing of `b` is started. */
  lemma {:induction false} ExecutedStopsInPrefix(a: Trace, b: Trace, failing: set<Command>)
    requires exists i :: 0 <= i < |a| && a[i] in failing
    ensures Executed(a + b, failing) == Executed(a, failing)
  {
    assert (a + b)[0] == a[0];
    if a[0] !in failing {
      var i :| 0 <= i < |a| && a[i] in failing;
      assert a[1..][i - 1] == a[i];
      assert (a + b)[1..] == a[1..] + b;
      ExecutedStopsInPrefix(a[1..], b, failing);
    }
  }

  /** When a spellcheck command (the `k`-th) fails, pre-commit starts at most
      its first five commands, the linter's and spellcheck's, so never the
      tests or the badge commands; and the last command it starts is a
      failing one. */
  lemma PreCommitStopsAtSpellcheck(posargs: seq<string>, failing: set<Command>, k: nat)
    requires k < 3 && SpellcheckTrace(posargs)[k] in failing
    ensures var r := Executed(PreCommitTrace(posargs), failing);
            r == Executed(LinterTrace(posargs) + SpellcheckTrace(posargs), failing) &&
            |r| <= |LinterTrace(posargs) + SpellcheckTrace(posargs)| == 5 &&
            r != [] && r[|r| - 1] in failing
  {
    var head := LinterTrace(posargs) + SpellcheckTrace(posargs);
    var tail := TestsTrace(posargs) + BADGES_TRACE;
    Halves(LinterTrace(posargs), SpellcheckTrace(posargs), TestsTrace(posargs), BADGES_TRACE);
    assert head[2 + k] in failing;
    ExecutedStopsInPrefix(head, tail, failing);
    var r := Executed(head, failing);
    if |r| == |head| {
      assert r[2 + k] == head[2 + k];
    }
  }
}
