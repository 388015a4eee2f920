# git-tools helpers in Dafny

A model of the helper layer of the `paluche` package of git-tools, with
proofs about it.

- **Terminal formatting** (`paluche/logging.py`). The `Color` enumeration,
  `get_color_format` with its nested `_set_color_code`, `get_blink_format`,
  `get_format` and `format_string`. `get_color_format` builds its list of
  SGR codes in place, so it is modelled twice:
  - a method `GetColorFormat` over a `CodeList` object, following the
    source step by step;
  - a specification function `ColorFormat`.

  The method is proved equal to the function. The function is proved
  against an independent reading of the codes: the SGR ("Select Graphic
  Rendition") semantics of section 8.3.117 of ECMA-48, plus the bright
  colours 90-97 and 100-107. The rendered string parses back into the
  same codes, and the codes appear in a fixed order.
- **rc file loading** (`paluche/config.py`). `DEFAULT_RC`,
  `_has_git_tools_rc`, `_find_git_tools_rc` and `load_git_tools_rc`. The
  environment and `os.path.isfile` are parameters. Opening and INI-parsing
  a file is one function from a path to the sections that
  `ConfigParser.items()` yields, or to a parse error. `DEFAULT_RC` is the
  object `DefaultRc`: the loader starts from a shallow copy of it, so its
  writes land in the module defaults.
- **Branch helpers** (`paluche/git.py`). `get_local_branch_name`,
  `get_remote_name`, `is_branch_remote` and `is_rebased_on`. A pygit2
  branch is reduced to its `branch_name` and to what reading
  `remote_name` gives: a name, or a raised error.
  `Repository.merge_base` is an uninterpreted function.

The two global switches `__FORMAT_ENABLED` and `__BLINKING_ENABLED` are
the `FormatFlags` argument. A raised `ValueError` is a `Failure` value.

`Color.RED` is 1 and `reset` defaults to true, so `fg=RED` gives
`ESC[0;31m`, and bright red in bold gives `ESC[0;91;1m` (see
`Logging.ExampleRed` and `Logging.ExampleBrightRedBold`).

Files:
- `wrappers.dfy`: `Option`, `Result`.
- `text.dfy`: decimal rendering and parsing, `join` and `split`, substrings.
- `logging.dfy`: module `Logging`.
- `config.dfy`: module `Config`.
- `git.dfy`: module `Git`.

## Model

| member | source | states |
|---|---|---|
| Logging.ColorOfName | paluche/logging.py:26-35 | the member a name denotes, if any; whatever it returns carries that name |
| Logging.ColorNameRoundTrip | paluche/logging.py:26-35 | names and the eight members are in one-to-one correspondence |
| Logging.CodeList.SetColorCode | paluche/logging.py:77-86 | raises exactly when the colour is given but is not a member; otherwise appends `enable + color` when bright, else `disable + color`, or nothing when no colour is given |
| Logging.CodeList.SetToggleCode | paluche/logging.py:108-118 | appends the on code when the option is true, the off code when it is false, and nothing when it is not given |
| Logging.GetColorFormat | paluche/logging.py:88-123 | the step-by-step build of the code list gives exactly `ColorFormat` |
| Logging.ColorFormat | paluche/logging.py:88-123 | "" whenever formatting is off, before any check; otherwise fails exactly when fg or bg is given and is not a colour |
| Logging.ColorCodes | paluche/logging.py:88-118 | the code list fails exactly when fg or bg is given and is not a colour; it has at most six codes, starts with 0 exactly when a reset is asked for, and is empty exactly when no option asks for anything |
| Logging.ColorCodesReachRequestedStyle | paluche/logging.py:93-118 | from any terminal style, applying the codes gives the requested style: reset to plain if asked, then the fg/bg hue with its brightness, the intensity, italic and underline; an omitted option leaves that attribute alone |
| Logging.ColorCodesBySlot | paluche/logging.py:93-118 | each kind of code (reset, fg, bg, intensity, italic, underline) appears at most once, exactly as the options ask |
| Logging.ColorCodesInOrder | paluche/logging.py:93-118 | the codes come in the fixed order reset, fg, bg, intensity, italic, underline |
| Logging.ColorCodesResetAndIntensity | paluche/logging.py:93-118 | the reset code comes first and only when asked for; bold true wins over faint, faint true gives 2, otherwise bold or faint given gives 22; italic and underline codes appear exactly when given |
| Logging.ResetEffect | paluche/logging.py:93-94 | the reset code takes any style to the plain style |
| Logging.FgEffect | paluche/logging.py:96 | the foreground code sets the foreground to the given colour, bright or not, and nothing else |
| Logging.BgEffect | paluche/logging.py:98 | the background code sets the background to the given colour, bright or not, and nothing else |
| Logging.IntensityEffect | paluche/logging.py:100-106 | the intensity code gives bold, faint or normal as bold/faint ask, and touches nothing else |
| Logging.ItalicEffect | paluche/logging.py:108-112 | the italic code sets italic as asked, and nothing else |
| Logging.UnderlineEffect | paluche/logging.py:114-118 | the underline code sets underline as asked, and nothing else |
| Logging.RenderRoundTrip | paluche/logging.py:120-121 | `ESC[` + codes joined by ";" + `m` parses back into the same codes |
| Logging.ParseCodeStrings | paluche/logging.py:121 | the decimal text of each code reads back as that code |
| Logging.Render | paluche/logging.py:120-123 | "" exactly when there are no codes; otherwise a sequence that starts with `ESC[` and ends with `m` |
| Logging.ColorFormatEmptyIff | paluche/logging.py:88-123 | the output is "" exactly when formatting is off or no option asks for anything, whatever the colour arguments |
| Logging.ExampleDefaults | paluche/logging.py:93-94 | all defaults give `ESC[0m` |
| Logging.ExampleRed | paluche/logging.py:96 | `fg=RED` gives `ESC[0;31m` |
| Logging.ExampleBrightRedBold | paluche/logging.py:96-102 | `fg=RED, fg_bright=True, bold=True` gives `ESC[0;91;1m` |
| Logging.ExampleBoldOff | paluche/logging.py:100-106 | `reset=False, bold=False` gives `ESC[22m` |
| Logging.BlinkFormat | paluche/logging.py:144-150 | "" exactly when blink is not given or either switch is off |
| Logging.BlinkFormatSetsBlink | paluche/logging.py:147-150 | a blink sequence reads back as one code that switches blinking as asked and leaves the rest of the style alone |
| Logging.GetFormatParts | paluche/logging.py:192-198 | the colour part followed by the blink part; a colour error propagates; "" when formatting is off; the colour part alone when blinking is off |
| Logging.GetFormatDefault | paluche/logging.py:192-198 | `get_format()` with no argument never fails and is a full reset (or "" when formatting is off) |
| Logging.GetFormat | paluche/logging.py:192-198 | fails exactly when formatting is on and a colour argument is not a colour; "" when formatting is off; a successful format ends with the blink part |
| Logging.FormatString | paluche/logging.py:208-209 | no arguments give "" |
| Logging.FormatStringShape | paluche/logging.py:208-212 | with arguments: the requested format, the arguments joined by single spaces, then a full reset; a bad colour raises; plain joined text when formatting is off |
| Logging.FormatStringEndsPlain | paluche/logging.py:211-212 | formatted output ends with a sequence that returns the terminal to the plain style |
| Config.DefaultRc.constructor | paluche/config.py:9-33 | the defaults start as the built-in table |
| Config.DefaultsWellTyped | paluche/config.py:9-33 | in the built-in table, the keys whose name contains "color" hold a `Color` and the others hold strings |
| Config.StoredValue | paluche/config.py:106-116 | a colour key stores the named `Color` and fails when the value names none; any other key stores the string |
| Config.StoreEntry | paluche/config.py:99-116 | one key of a section: an unknown key raises, a colour key whose value names no colour raises, otherwise the converted value is written under that key |
| Config.ApplyEntries | paluche/config.py:99-116 | merging one section's keys never adds or removes a section or a key |
| Config.ApplySections | paluche/config.py:88-116 | merging the sections never adds or removes a section or a key |
| Config.ApplySectionsOkIff | paluche/config.py:88-116 | a merge succeeds exactly when every section other than DEFAULT is known, and each of its keys is known and names a colour when it is a colour key |
| Config.ApplyEntriesOkIff | paluche/config.py:97-116 | one section merges without error exactly when its keys are known and their colours valid |
| Config.ApplySectionsValues | paluche/config.py:88-118 | after a successful merge, each key holds the converted last value the file gives it, and every other key keeps its default |
| Config.ApplySectionsValueAt | paluche/config.py:88-118 | the same, for one section and key |
| Config.ApplyEntriesValueAt | paluche/config.py:99-116 | the same, within one section |
| Config.ApplySectionsWellTyped | paluche/config.py:106-116 | merging keeps "colour keys hold a `Color`, other keys hold strings" |
| Config.ApplySectionsErrorWitness | paluche/config.py:92-112 | every error names a real violation: an unknown section in the file, an unknown key in one of its sections, or a colour key whose value names no colour |
| Config.SectionsStopAtError | paluche/config.py:92-95 | once a section raises, the later sections change nothing |
| Config.EntriesStopAtError | paluche/config.py:100-112 | once a key raises, the later keys change nothing |
| Config.MergeEntries | paluche/config.py:97-116 | the loop over one section's keys gives the merge the specification defines, including the writes made before an error |
| Config.MergeSections | paluche/config.py:88-118 | the loop over the sections gives the merge the specification defines, including the writes made before an error |
| Config.LoadOutcomeShape | paluche/config.py:74-86 | no file found, or a file that does not parse, leaves the table as it is; any load keeps the key sets and the typing |
| Config.LoadOutcome | paluche/config.py:74-118 | no path, or an empty one, leaves the table as it is with no error; the load raises exactly when the file parses and its sections break the schema; the key sets never change |
| Config.DefaultRc.LoadFrom | paluche/config.py:74-118 | returns the merged table or the raised error; the defaults become the merged table, including a partial merge cut short by an error |
| Config.DefaultRc.LoadGitToolsRc | paluche/config.py:67-118 | searches, then loads: the outcome is that of loading some path the search may return |
| Config.DefaultRc.LoadDetached | paluche/config.py:75 | the same result as the loader, computed on a copy, and the defaults are left as they were |
| Config.PartialWriteBeforeError | paluche/config.py:97-116 | a section whose first key is accepted and whose second is unknown fails on the second, yet the table holds the first write |
| Config.FailedLoadStillRewritesDefaults | paluche/config.py:75-116 | a file that sets `cursor` and then names an unknown key raises, yet the table the defaults share now holds the new cursor |
| Config.LoadFromKeepsFailedWrites | paluche/config.py:75-116 | on the loader object: that file makes the load raise on the unknown key, and the defaults object afterwards holds cursor `>` |
| Config.HasAttrLetsNonColorsThrough | paluche/config.py:109-114 | `hasattr(Color, value)` accepts every colour name but also "bit_length", which names no colour; the membership test the model uses rejects it |
| Config.HasGitToolsRc | paluche/config.py:36-47 | no path when any component is unset or empty; otherwise the joined path, returned exactly when it is a file |
| Config.PathOfComponents | paluche/config.py:41-42 | the path is the components joined with "/", then "/" and `git_tools_rc` (or `.git_tools_rc` for a dot file) |
| Config.XdgCandidatePath | paluche/config.py:41-54 | the XDG candidate is `$XDG_CONFIG_HOME/git_tools_rc` |
| Config.ConfigDirCandidatePath | paluche/config.py:41-55 | the configuration-directory candidate is `$HOME/.config/git_tools_rc` |
| Config.EtcCandidatePath | paluche/config.py:41-57 | the system-wide candidate is `/etc/git-tools-rc/git_tools_rc` |
| Config.DotFileCandidatePath | paluche/config.py:41-56 | the dot-file candidate is `$HOME/.git_tools_rc` |
| Config.FindGitToolsRc | paluche/config.py:50-64 | no path exactly when no candidate is a file; otherwise one of the candidates that is a file, in no promised order |
| Config.Candidates | paluche/config.py:53-58 | four distinct candidates, each of one or two components; the dot file is looked for in `$HOME` alone, and only there |
| Git.GetLocalBranchName | paluche/git.py:6-17 | drops exactly the first `len(remote_name) + 1` characters, or gives "" when the name is shorter; reading `remote_name` on a local branch raises |
| Git.LocalNameOfRemoteBranch | paluche/git.py:17 | the branch `remote/s` has the local name `s` |
| Git.RemotePrefixRestores | paluche/git.py:17 | when the name starts with the remote and "/", putting them back in front of the local name gives the name again |
| Git.ShortNameGivesEmpty | paluche/git.py:17 | a name no longer than the remote prefix gives "" |
| Git.GetRemoteName | paluche/git.py:34-39 | `None` exactly when reading `remote_name` raises `ValueError`; the name unchanged otherwise; any other error propagates |
| Git.IsBranchRemote | paluche/git.py:51 | true exactly when the branch has a remote name and that name is not empty |
| Git.BranchKinds | paluche/git.py:42-51 | a local branch is not remote, nor is one with an empty remote name; a remote branch has a local name |
| Git.IsRebasedOn | paluche/git.py:69 | true exactly when the merge base of `target` and `reference`, asked for with `target` first, is `target` |
| Git.RebasedOnIsPartialOrder | paluche/git.py:54-69 | when the merge base behaves as a greatest common ancestor, "rebased on" is reflexive, antisymmetric and transitive |
| Git.ArgumentOrder | paluche/git.py:69 | with a commutative merge base, the argument order does not matter |

## Left out

- `print_format` and the `logging`-module overlay: output to a stream.
- Python values for the colour arguments other than integers. `1.0 in list(Color)` holds, and it would render as `31.0`. `True` counts as 1.
- `str(x)` of the arguments of `format_string`: the arguments are taken as strings already.
- Setting the two global switches at run time: they are an argument.
- `ConfigParser` itself: key lower-casing, interpolation, duplicate keys, and the merging of `[DEFAULT]` keys into every section. The parsed sections are an input, given as `items()` yields them.
- Opening and reading the file, and the error message texts, including the path named in the unexpected-key message.
- `os.environ`, `os.path.expanduser` and `os.path.isfile`: they are parameters.
- `os.path.join` of a component that already ends in "/": with `HOME=/home/u/` Python gives `/home/u/.config/git_tools_rc`, the model `/home/u//.config/git_tools_rc`. The other components are literals without a trailing "/", and a component that starts with "/" (which would discard the earlier ones) does not arise after the first.
- The object identity of the inner section dictionaries: `DefaultRc.table` holds the defaults, and the returned table equals it after the load.
- The search order written in the loader's docstring: the source iterates over a set, so no order is modelled.
- pygit2 branches and repositories: reduced to the two attributes and the merge-base function above. Commit graphs are not modelled.
- `is_rebased_on` comparing pygit2's `Oid` result with a string: the merge base is given as an optional reference of the same kind as its arguments.
- `DEFAULT_BRANCH_NAMES`: not used by the modelled functions.

## Findings

| source | as written | input that shows it | evidently intended | confidence | as-written member | corrected member |
|---|---|---|---|---|---|---|
| paluche/config.py:75 | `DEFAULT_RC.copy()` is shallow, so writes to `ret[section_key][key]` change `DEFAULT_RC` itself, even when a later key raises | a `[git-branch-status]` section with `cursor = >` then an unknown key: the load raises, yet `DEFAULT_RC` now has cursor `>` | the defaults stay the built-in table; only the returned table holds the file's values | not executed | Config.LoadFromKeepsFailedWrites | Config.DefaultRc.LoadDetached |
| paluche/config.py:109-114 | `hasattr(Color, value)` accepts any attribute of the class, not only member names | a colour key set to `bit_length`: accepted, and `getattr` stores a method rather than a `Color` | only the names of the eight members are accepted | not executed | Config.HasAttrLetsNonColorsThrough | Config.StoredValue |
