/** The command builders of noxfile.py: how the positional tokens of a session
    (`session.posargs`) turn into the argument vector handed to `session.run`.
    Each builder is a specification function, whose contract states what the
    vector means, and a method that builds the vector step by step as the
    source does and is proved equal to it. Token tests are exact-token
    membership (`tok in posargs`) or `str.startswith`. */
module Commands {
  import opened Tokens

  // ---------------------------------------------------------------- linter

  const RUFF_BASE: seq<string> := ["ruff", "check"]

  /** The ruff command: `--statistics` with `stats`, then `--fix` with
      `format`, or `--fix --unsafe-fixes` with `format-unsafe` when `format`
      is absent. */
  function LinterCommand(posargs: seq<string>): (r: seq<string>)
    ensures |r| >= 2 && r[..2] == RUFF_BASE
    ensures "stats" !in posargs && "format" !in posargs && "format-unsafe" !in posargs
            ==> r == RUFF_BASE
    ensures "--statistics" in r <==> "stats" in posargs
    ensures "stats" in posargs ==> r[2] == "--statistics"
    ensures "--fix" in r <==> "format" in posargs || "format-unsafe" in posargs
    ensures "--unsafe-fixes" in r <==> "format-unsafe" in posargs && "format" !in posargs
    ensures "format" in posargs ==> r[|r| - 1] == "--fix"
    ensures "format" !in posargs && "format-unsafe" in posargs
            ==> r[|r| - 2..] == ["--fix", "--unsafe-fixes"]
    ensures |r| == 2 + (if "stats" in posargs then 1 else 0)
                     + (if "format" in posargs then 1
                        else if "format-unsafe" in posargs then 2 else 0)
  {
    var stats := if "stats" in posargs then ["--statistics"] else [];
    var fix := if "format" in posargs then ["--fix"]
               else if "format-unsafe" in posargs then ["--fix", "--unsafe-fixes"]
               else [];
    RUFF_BASE + stats + fix
  }

  /** The body of `run_ruff` that builds `command` by `append` and `extend`. */
  method BuildLinterCommand(posargs: seq<string>) returns (command: seq<string>)
    ensures command == LinterCommand(posargs)
  {
    command := RUFF_BASE;
    if "stats" in posargs {
      command := command + ["--statistics"];
    }
    if "format" in posargs {
      command := command + ["--fix"];
    } else if "format-unsafe" in posargs {
      command := command + ["--fix", "--unsafe-fixes"];
    }
  }

  // ---------------------------------------------------- codespell / spellcheck

  const CODESPELL_BASE: seq<string> := ["codespell", "--config=.github/linters/.codespellrc"]

  /** The codespell command: with `write`, `-w` goes in at index 1 and the
      rest of the base vector follows unchanged. */
  function CodespellCommand(posargs: seq<string>): (r: seq<string>)
    ensures |r| >= 2 && r[0] == "codespell"
    ensures "-w" in r <==> "write" in posargs
    ensures "write" !in posargs ==> r == CODESPELL_BASE
    ensures "write" in posargs ==> |r| == 3 && r[1] == "-w" && r[..1] + r[2..] == CODESPELL_BASE
  {
    if "write" in posargs then Insert(CODESPELL_BASE, 1, ["-w"]) else CODESPELL_BASE
  }

  /** The body of `run_codespell` (and the inlined copy in `run_spellcheck`)
      that builds `command` with `insert(1, '-w')`. */
  method BuildCodespellCommand(posargs: seq<string>) returns (command: seq<string>)
    ensures command == CodespellCommand(posargs)
  {
    command := CODESPELL_BASE;
    if "write" in posargs {
      command := Insert(command, 1, ["-w"]);
    }
  }

  // ------------------------------------------------------------------ tests

  const TESTS_NO_REPORTS: seq<string> := ["pytest", "--cov=sksundae", "tests/"]
  const TESTS_CODECOV: seq<string> := ["pytest", "--cov=sksundae", "--cov-report=xml", "tests/"]
  const TESTS_FULL_REPORTS: seq<string> := [
    "pytest",
    "--cov=sksundae",
    "--cov-report=html:reports/htmlcov",
    "--cov-report=xml:reports/coverage.xml",
    "--junitxml=reports/junit.xml",
    "--html=reports/pytest.html",
    "--self-contained-html",
    "tests/"
  ]

  /** The base pytest vector: exactly one of three, chosen with priority
      `no-reports`, then `codecov`, then the full report set. */
  function TestsBase(posargs: seq<string>): (r: seq<string>)
    ensures r == TESTS_NO_REPORTS <==> "no-reports" in posargs
    ensures r == TESTS_CODECOV <==> "no-reports" !in posargs && "codecov" in posargs
    ensures r == TESTS_FULL_REPORTS <==> "no-reports" !in posargs && "codecov" !in posargs
    ensures |r| >= 3 && r[0] == "pytest" && r[1] == "--cov=sksundae" && r[|r| - 1] == "tests/"
  {
    if "no-reports" in posargs then TESTS_NO_REPORTS
    else if "codecov" in posargs then TESTS_CODECOV
    else TESTS_FULL_REPORTS
  }

  /** What one token adds at index 1: `["-n", N]` for `parallel=N` (N being
      the text after the last `=`, passed through uninterpreted), `["-n",
      "auto"]` for any other token starting with `parallel`, nothing for the
      rest. */
  function ParallelFragment(arg: string): (frag: seq<string>)
    ensures frag != [] <==> StartsWith(arg, "parallel")
    ensures frag != [] ==> |frag| == 2 && frag[0] == "-n"
    ensures StartsWith(arg, "parallel") && !StartsWith(arg, "parallel=") ==> frag == ["-n", "auto"]
    ensures StartsWith(arg, "parallel=") ==> '=' !in frag[1] && |frag[1]| < |arg| && arg[|arg| - |frag[1]|..] == frag[1]
                                             && arg[|arg| - |frag[1]| - 1] == '='
  {
    if StartsWith(arg, "parallel=") then
      StartsWithShorter(arg, "parallel", "=");
      var value := LastField(arg, '=');
      assert arg[8] == "parallel="[8] == '=';
      ["-n", value]
    else if StartsWith(arg, "parallel") then ["-n", "auto"]
    else []
  }

  /** `parallel=N` inserts exactly `["-n", N]` when N holds no `=`. */
  lemma ParallelValue(n: string)
    requires '=' !in n
    ensures ParallelFragment("parallel=" + n) == ["-n", n]
  {
    var arg := "parallel=" + n;
    assert arg[..|"parallel="|] == "parallel=";
    assert arg == "parallel" + ['='] + n;
    LastFieldAfterSep("parallel", '=', n);
  }

  /** The number of tokens starting with `parallel`. */
  function ParallelCount(posargs: seq<string>): (n: nat)
    ensures n <= |posargs|
    ensures n == 0 <==> forall j :: 0 <= j < |posargs| ==> !StartsWith(posargs[j], "parallel")
  {
    if posargs == [] then 0
    else ParallelCount(posargs[..|posargs| - 1])
         + (if StartsWith(posargs[|posargs| - 1], "parallel") then 1 else 0)
  }

  /** All fragments the loop puts in after `pytest`: each token's fragment is
      inserted at index 1, so the latest token's fragment comes first. */
  function Fragments(posargs: seq<string>): (r: seq<string>)
    ensures forall i :: 0 <= i < |r| && i % 2 == 0 ==> r[i] == "-n"
  {
    if posargs == [] then []
    else
      var frag, rest := ParallelFragment(posargs[|posargs| - 1]), Fragments(posargs[..|posargs| - 1]);
      assert |frag| % 2 == 0;
      frag + rest
  }

  /** The final pytest vector: the chosen base with every fragment inserted
      after its first element. */
  function TestsCommand(posargs: seq<string>): (r: seq<string>)
    ensures |r| >= 3 && r[0] == "pytest" && r[|r| - 1] == "tests/"
  {
    var base := TestsBase(posargs);
    Insert(base, 1, Fragments(posargs))
  }

  /** Two elements per token starting with `parallel`, none for the rest. */
  lemma {:induction false} FragmentsLength(posargs: seq<string>)
    ensures |Fragments(posargs)| == 2 * ParallelCount(posargs)
  {
    if posargs != [] {
      FragmentsLength(posargs[..|posargs| - 1]);
    }
  }

  /** Length growth, base order preserved, `pytest` first, `tests/` last, and
      the base itself when no token starts with `parallel`. */
  lemma TestsCommandShape(posargs: seq<string>)
    ensures |TestsCommand(posargs)| == |TestsBase(posargs)| + 2 * ParallelCount(posargs)
    ensures TestsCommand(posargs)[0] == TestsBase(posargs)[0] == "pytest"
    ensures TestsCommand(posargs)[2 * ParallelCount(posargs) + 1..] == TestsBase(posargs)[1..]
    ensures TestsCommand(posargs)[|TestsCommand(posargs)| - 1] == "tests/"
    ensures ParallelCount(posargs) == 0 ==> TestsCommand(posargs) == TestsBase(posargs)
  {
    FragmentsLength(posargs);
    var base := TestsBase(posargs);
    if ParallelCount(posargs) == 0 {
      assert TestsCommand(posargs) == base[..1] + base[1..];
      assert base[..1] + base[1..] == base;
    }
  }

  /** Tokens after the `k`-th that do not start with `parallel` add nothing
      in front of its fragment. */
  lemma {:induction false} LatestFragmentFirst(posargs: seq<string>, k: nat)
    requires k < |posargs| && StartsWith(posargs[k], "parallel")
    requires forall j :: k < j < |posargs| ==> !StartsWith(posargs[j], "parallel")
    ensures |Fragments(posargs)| >= 2 && Fragments(posargs)[..2] == ParallelFragment(posargs[k])
  {
    var last := |posargs| - 1;
    var front := posargs[..last];
    var frag := ParallelFragment(posargs[last]);
    assert Fragments(posargs) == frag + Fragments(front);
    if k < last {
      assert front[k] == posargs[k];
      forall j | k < j < |front| ensures !StartsWith(front[j], "parallel") {
        assert front[j] == posargs[j];
      }
      LatestFragmentFirst(front, k);
      assert frag == [];
      assert Fragments(posargs) == Fragments(front);
    } else {
      assert |frag| == 2;
      assert (frag + Fragments(front))[..2] == frag;
    }
  }

  /** The fragment of the latest token starting with `parallel` sits at
      indices 1 and 2 of the tests command. */
  lemma LatestFragmentAfterProgram(posargs: seq<string>, k: nat)
    requires k < |posargs| && StartsWith(posargs[k], "parallel")
    requires forall j :: k < j < |posargs| ==> !StartsWith(posargs[j], "parallel")
    ensures TestsCommand(posargs)[1..3] == ParallelFragment(posargs[k])
  {
    LatestFragmentFirst(posargs, k);
    InsertFront(TestsBase(posargs), Fragments(posargs));
  }

  /** After inserting at index 1, indices 1 and 2 hold the first two
      elements of the fragment. */
  lemma InsertFront<T>(base: seq<T>, frag: seq<T>)
    requires 1 <= |base| && 2 <= |frag|
    ensures Insert(base, 1, frag)[1..3] == frag[..2]
  {
    var t := Insert(base, 1, frag);
    assert t[1..3] == t[1..1 + |frag|][..2];
  }

  /** One turn of the loop of `run_pytest`: inserting the fragment of the
      next token extends the fragments seen so far. */
  lemma TestsLoopStep(base: seq<string>, posargs: seq<string>, i: nat)
    requires 1 <= |base| && i < |posargs|
    ensures Insert(Insert(base, 1, Fragments(posargs[..i])), 1, ParallelFragment(posargs[i]))
            == Insert(base, 1, Fragments(posargs[..i + 1]))
  {
    assert posargs[..i + 1][..i] == posargs[..i];
    assert Fragments(posargs[..i + 1]) == ParallelFragment(posargs[i]) + Fragments(posargs[..i]);
    InsertTwice(base, 1, Fragments(posargs[..i]), ParallelFragment(posargs[i]));
  }

  /** The if/elif chain of `run_pytest` that selects the base vector. */
  method SelectTestsBase(posargs: seq<string>) returns (command: seq<string>)
    ensures command == TestsBase(posargs)
  {
    if "no-reports" in posargs {
      command := TESTS_NO_REPORTS;
    } else if "codecov" in posargs {
      command := TESTS_CODECOV;
    } else {
      command := TESTS_FULL_REPORTS;
    }
  }

  /** The loop of `run_pytest` that, token by token, slice-assigns the
      token's fragment into `command[1:1]`. */
  method InsertParallelFragments(base: seq<string>, posargs: seq<string>) returns (command: seq<string>)
    requires |base| >= 1
    ensures command == Insert(base, 1, Fragments(posargs))
  {
    command := base;
    for i := 0 to |posargs|
      invariant command == Insert(base, 1, Fragments(posargs[..i]))
    {
      var arg := posargs[i];
      TestsLoopStep(base, posargs, i);
      if StartsWith(arg, "parallel=") {
        command := Insert(command, 1, ["-n", LastField(arg, '=')]);
      } else if StartsWith(arg, "parallel") {
        command := Insert(command, 1, ["-n", "auto"]);
      } else {
        assert Insert(command, 1, ParallelFragment(arg)) == command;
      }
    }
    assert posargs[..|posargs|] == posargs;
  }

  /** The command construction of `run_pytest`. */
  method BuildTestsCommand(posargs: seq<string>) returns (command: seq<string>)
    ensures command == TestsCommand(posargs)
  {
    command := SelectTestsBase(posargs);
    command := InsertParallelFragments(command, posargs);
  }

  /** `parallel=8` puts `-n 8` right after `pytest`, not at the end. */
  lemma ParallelEightAfterProgram()
    ensures var t := TestsCommand(["parallel=8"]); t[0] == "pytest" && t[1] == "-n" && t[2] == "8"
  {
    var arg := "parallel=8";
    assert arg == "parallel=" + "8";
    assert arg[..8] == "parallel";
    ParallelValue("8");
    LatestFragmentAfterProgram([arg], 0);
    var t := TestsCommand([arg]);
    assert t[1..3] == ["-n", "8"];
  }
}
