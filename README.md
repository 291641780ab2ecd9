# noxfile.py command construction, in Dafny

This project models the deterministic core of the `noxfile.py` of
scikit-sundae: the rules by which each `nox` session turns its positional
tokens (`session.posargs`) into the argument vectors it hands to
`session.run`, the fixed order in which every session (the composite `docs`
and `pre-commit` included) issues those commands, and the guarded removals of
the `cleanup` session.

- `tokens.dfy` (module `Tokens`): `str.startswith`, `str.split(c)[-1]` for a
  one-character separator `c`, and insertion of a fragment into a list at an
  index (`list.insert(1, x)`, `list[1:1] = fragment`).
- `commands.dfy` (module `Commands`): the builders of the `linter`,
  `codespell`/`spellcheck` and `tests` commands. Each one is a
  specification function whose contract states what the vector means, plus a
  method that builds the vector step by step as the Python does (append,
  extend, insert at index 1, and the per-token insertion loop of the tests
  session), proved equal to the function.
- `sessions.dfy` (module `Sessions`): the `nox` session object as a class
  with its tokens and a `trace` of argument vectors; `run` appends to the
  trace. Each session body is a method proved to append exactly the trace its
  specification function gives. The fail-fast behaviour of `nox` is stated
  as an assumption (`Executed`): a set of commands is taken to fail, and the
  session stops after the first of them.
- `cleanup.dfy` (module `Cleanup`): the file system as a set of existing
  paths; `os.remove` drops one path, `shutil.rmtree` a path and everything
  below it, and each requires its target to exist, as the library calls do.

Behaviour of the code that is easy to misread, modelled as written:

- Every token starting with `parallel` inserts its own `-n` fragment: all of
  them stay in the vector, the latest one first (at indices 1 and 2).
- Any token starting with `parallel` but not with `parallel=` (for example
  `parallelX`) gives `-n auto`, not only the bare `parallel`. For
  `parallel=...` the value is the text after the LAST `=`, so `parallel=a=b`
  gives `-n b` and `parallel=` gives `-n` followed by an empty value.
- Composite sessions hand their own session to every constituent, so each
  constituent sees all of the tokens
  (`pre-commit` with `stats` or `codecov` affects the linter or the tests
  command too).
- The docs session does not restore the working directory in a guaranteed
  way; that branch is outside the model (see below).

## Model

| member | source | states |
|---|---|---|
| Tokens.StartsWith | noxfile.py:121-123 | `arg.startswith(p)` holds iff `arg` is `p` followed by some rest |
| Tokens.LastField | noxfile.py:122 | `split('=')[-1]`: the result is the suffix of the token that holds no `=` and reaches back to the start or to an `=` |
| Tokens.LastFieldAfterSep | noxfile.py:122 | for `a + "=" + b` with no `=` in `b`, the last field is exactly `b` |
| Tokens.Insert | noxfile.py:60 | inserting at index `i` keeps the first `i` elements, puts the fragment at `i`, and keeps the rest in order after it (also lines 78, 122, 124) |
| Tokens.InsertTwice | noxfile.py:120-124 | two insertions at the same index equal one insertion of the later fragment followed by the earlier one |
| Commands.LinterCommand | noxfile.py:35-42 | starts `ruff check`; equals it with none of `stats`, `format`, `format-unsafe`; `--statistics` present iff `stats`, at index 2, before the fix flags; `--fix` iff `format` or `format-unsafe`; `--unsafe-fixes` iff `format-unsafe` and not `format`; the exact length |
| Commands.BuildLinterCommand | noxfile.py:35-42 | the append/extend steps build exactly the vector of `LinterCommand` |
| Commands.CodespellCommand | noxfile.py:58-60 | the base codespell vector without `write`; with `write`, `-w` at index 1 and the base vector otherwise unchanged; `-w` present iff `write` |
| Commands.BuildCodespellCommand | noxfile.py:58-60 | `insert(1, '-w')` builds exactly the vector of `CodespellCommand` (also the inlined copy at lines 76-78) |
| Commands.TestsBase | noxfile.py:93-118 | exactly one of the three base vectors, chosen iff by the priority `no-reports`, then `codecov`, then the full report set; each starts `pytest --cov=sksundae` and ends with `tests/` |
| Commands.ParallelFragment | noxfile.py:120-124 | a fragment iff the token starts with `parallel`; it is two elements starting with `-n`; `-n auto` when the token does not start with `parallel=`; otherwise the value is the text after the last `=` of the token: an `=`-free suffix preceded by an `=` |
| Commands.ParallelValue | noxfile.py:121-122 | `parallel=N` with no `=` in N inserts exactly `-n N` |
| Commands.ParallelCount | noxfile.py:120-124 | the number of tokens starting with `parallel` is at most the number of tokens, and zero iff no token starts with `parallel` |
| Commands.Fragments | noxfile.py:120-124 | every even position of the inserted block holds `-n` |
| Commands.TestsCommand | noxfile.py:93-124 | the final vector still starts with `pytest` and ends with `tests/` whatever fragments the loop inserts |
| Commands.FragmentsLength | noxfile.py:120-124 | the loop inserts two elements per token starting with `parallel` and none for any other token |
| Commands.TestsCommandShape | noxfile.py:93-124 | final length = base length + 2 × number of `parallel` tokens; `pytest` first; the rest of the base, `tests/` last, follows the fragments in its old order; equal to the base when no token starts with `parallel` |
| Commands.LatestFragmentFirst | noxfile.py:120-124 | the inserted fragments begin with the fragment of the latest token starting with `parallel` |
| Commands.LatestFragmentAfterProgram | noxfile.py:120-124 | the fragment of the latest token starting with `parallel` sits at indices 1 and 2 of the tests command |
| Commands.TestsLoopStep | noxfile.py:120-124 | one turn of the loop: inserting the next token's fragment at index 1 extends the fragments of the tokens seen so far |
| Commands.SelectTestsBase | noxfile.py:93-118 | the if/elif chain yields exactly `TestsBase` |
| Commands.InsertParallelFragments | noxfile.py:120-124 | the per-token loop, with its two prefix branches, leaves the base with all fragments inserted after its first element, latest first |
| Commands.BuildTestsCommand | noxfile.py:93-124 | base selection followed by the loop builds exactly `TestsCommand` |
| Commands.ParallelEightAfterProgram | noxfile.py:121-122 | tokens `[parallel=8]` give a vector starting `pytest -n 8` |
| Sessions.Session.Run | noxfile.py:44 | `session.run(*command)` appends the vector to the trace and changes nothing else |
| Sessions.LinterTrace | noxfile.py:33-44 | two commands: installing the program the linter command runs, then the linter command |
| Sessions.CodespellTrace | noxfile.py:56-62 | two commands: installing the program the codespell command runs, then the codespell command |
| Sessions.SpellcheckTrace | noxfile.py:74-80 | the codespell trace, then the same codespell vector with `docs/source` as its last element |
| Sessions.TestsTrace | noxfile.py:93-127 | no installation step: one command, the pytest vector |
| Sessions.DocsTrace | noxfile.py:157-171 | four commands, five iff `clean` is given, the last being `sphinx-build docs/source docs/build` |
| Sessions.PreCommitTrace | noxfile.py:183-187 | eight commands: the linter trace, then the spellcheck trace, then the tests trace, then the two badge commands |
| Sessions.DocsEndsWithSpellcheckThenSphinx | noxfile.py:157-171 | ends with the spellcheck trace followed by `sphinx-build docs/source docs/build`; one more command, `make clean` first, iff `clean` is given |
| Sessions.RunLinter | noxfile.py:33-44 | appends `pip install ... ruff` and the linter command |
| Sessions.RunCodespell | noxfile.py:56-62 | appends `pip install ... codespell` and the codespell command |
| Sessions.RunSpellcheck | noxfile.py:74-80 | appends the codespell session's trace, then the codespell vector over `docs/source` |
| Sessions.RunTests | noxfile.py:93-127 | appends the one tests command |
| Sessions.RunBadges | noxfile.py:133-143 | appends the two fixed `genbadge` commands |
| Sessions.RunDocs | noxfile.py:157-171 | appends the docs trace |
| Sessions.RunPreCommit | noxfile.py:183-187 | calling the four bodies in order, on the same session, appends the linter, spellcheck, tests and badges traces in that order |
| Sessions.Executed | noxfile.py:183-187 | under the fail-fast assumption: a prefix of the trace, no command before the last fails, a cut-short run ends with a failing command, and with no failing command the whole trace runs |
| Sessions.ExecutedStopsInPrefix | noxfile.py:183-187 | once a command of the first part fails, nothing of the second part runs |
| Sessions.PreCommitStopsAtSpellcheck | noxfile.py:183-187 | when a spellcheck command fails, pre-commit starts only (a prefix of) the five linter and spellcheck commands, so never the tests or badge commands, and the last command started is a failing one |
| Cleanup.WithoutTree | noxfile.py:20 | `rmtree` removes the folder and exactly the paths below it |
| Cleanup.FileSystem.Remove | noxfile.py:15 | `os.remove` needs an existing path and removes only it |
| Cleanup.FileSystem.RemoveTree | noxfile.py:20 | `rmtree` needs an existing folder and removes its tree |
| Cleanup.RemoveTreeIfExists | noxfile.py:19-20 | adds no path; when the folder exists, nothing below it (the folder included) is left and every path not below it is kept; nothing changes when it does not exist |
| Cleanup.RemoveFolders | noxfile.py:17-20 | exactly the paths that lie below none of the folders that existed are left: a folder already removed with an earlier one takes nothing more with it, and a missing folder takes nothing |
| Cleanup.CleanupResult | noxfile.py:14-20 | afterwards neither `.coverage` nor either cache folder exists, and no path was added |
| Cleanup.CleanupEffect | noxfile.py:14-20 | nothing is left below a folder that existed; a path is kept exactly when it existed, is not `.coverage`, and lies below none of the folders that existed |
| Cleanup.RunCleanup | noxfile.py:12-20 | the guarded removals leave exactly `CleanupResult`, and no removal is attempted on a missing path |
| Cleanup.RemoveFoldersRemovesAll | noxfile.py:17-20 | after the loop none of the folders exists |
| Cleanup.RemoveFoldersAbsent | noxfile.py:17-20 | the loop changes nothing when none of the folders exists |
| Cleanup.CleanupIdempotent | noxfile.py:14-20 | a second cleanup on the result changes nothing |

## Left out

- Process execution by `session.run`, `pip install` side effects and exit
  codes: `run` only appends the vector to a trace. Which commands fail is a
  parameter (`failing`), and stopping at the first failure is an assumption
  about `nox`, which is not part of this model.
- Sessions.Executed: failure is keyed by the command vector, not by its
  position, so two equal vectors in one trace would fail together; no trace
  of this model holds the same vector twice.
- The session registry (`@nox.session`, `nox.options.sessions`): it lives in
  `nox`; the file itself performs no duplicate-name or unknown-session check.
- `os.environ['MPLBACKEND'] = 'Agg'` and `os.makedirs('reports')` in the
  tests session: environment and file-system side effects.
- The docs `clean` branch apart from its `make clean` command: `os.chdir`
  into `docs/` and back, and the `rmtree` of `source/api` and
  `jupyter_execute`. The trace does not record the working directory; the
  `chdir('..')` is not scoped in the code, so a failing `make clean` skips it.
- The `rebuild` session: a fixed pair of external commands with no token
  handling.
- Validation of `parallel=N`: the value is passed through uninterpreted, as
  the code does.
- Cleanup.FileSystem: paths are plain strings; `os.remove` on a directory and
  the distinction between files and folders are not modelled. The set of
  paths need not hold the parent folders of its paths, so a path below a
  folder that is not in the set (`__pycache__/x` without `__pycache__`)
  survives the cleanup, just as the guarded `rmtree` leaves it in place.
  `os.path.exists` (`Cleanup.FileSystem.Exists`) is by definition membership
  in the set, with no contract of its own.
