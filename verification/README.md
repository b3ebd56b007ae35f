# Interactive `compose up`, `compose debug` and their helpers, in Dafny

This project models the core of a branch of Docker Compose that adds an
interactive keyboard menu to `compose up` and a `compose debug` command.
It has one module per Go file:

- `Formatter` (`shortcut.dfy`) models the keyboard manager of
  `cmd/formatter/shortcut.go`. `LogKeyboard` is a class whose fields are:
  - the log level;
  - the watch toggle (`KeyboardWatch`);
  - the time-limited error banner (`KeyboardError`);
  - the terminal output, as a trace of cursor moves, line clears and prints;
  - the background work it sets off, as a trace of effects: spawned tasks,
    watch cancellation and the SIGINT hand-off.

  Its methods are proved against functions that say what each drawing or
  key press writes and does. Lemmas then prove properties of those
  functions: how many rows the footer reserves, when the banner shows, that
  the watch toggle is an involution, and what Ctrl-C sets off.
- `ComposeUp` (`up.dfy`) models `pkg/compose/up.go`:
  - the early returns before the interactive part;
  - the teardown loop, as a step function over the events its `select`
    receives, driven by a `while` loop;
  - the final exit-code and error aggregation.

  Lemmas give the loop's invariant (`Reachable`) and its consequences: when
  a Kill can happen, the number of graceful Stops, and that an exited loop
  stays exited.
- `ComposeDebug` (`debug.dfy`) models `pkg/compose/debug.go`:
  - loading the `x-debug` extension;
  - overriding it with command-line options;
  - turning the config into flags;
  - spawning the attach tool.
- `PathUtils` (`pathutils.dfy`) models `pkg/utils/pathutils.go`: the walk
  over a path's cumulative prefixes that finds the first symbolic link, and
  the rewrite of the path with that link's target.
- `Tracing` (`keyboard_metrics.dfy`) models
  `internal/tracing/keyboard_metrics.go`: the commands the menu offers and
  the append-only log of the commands used.
- `StringUtils` (`stringutils.dfy`) models `pkg/utils/stringutils.go`:
  membership in a list, lenient and strict boolean parsing, and reading a
  boolean from the environment.
- `Wrappers` (`wrappers.dfy`) holds `Option`/`Result`. They stand for Go's
  nil-able values and `(value, error)` pairs.

The outside world enters only as parameters:
- the filesystem (`Lstat`, `EvalSymlinks`) is a map;
- the environment is a map;
- the extension decoder (`mapstructure.Decode`) is a function parameter;
- the colouring helpers, terminal size and clock are parameters;
- the spawned process's outcome is a parameter.

Some of what the code does, as the model follows it:
- `compose debug` builds its flags in the order host, shell, privileged,
  root, command (`pkg/compose/debug.go:33-37`).
- The flag list starts with five empty strings (`pkg/compose/debug.go:32`),
  and it is never passed to the spawned command, which is
  `dld attach <service>` (`pkg/compose/debug.go:40`).
- The rows a footer line reserves are `floor(visible length / width) + 1`
  (`cmd/formatter/shortcut.go:314-316` and `:159-162`). So a line of exactly
  the terminal's width reserves two rows (`Formatter.FullWidthTextOffset`).
- The Ctrl-C key starts a graceful teardown every time
  (`pkg/compose/up.go:100-103`). Only the signal and context paths check
  `first` (`pkg/compose/up.go:130-145`). So two Ctrl-C presses schedule two
  Stops (see Findings).
- Disabling watch does not reset the stored cancel handle
  (`cmd/formatter/shortcut.go:85-87`). The model keeps the handle
  (`Formatter.KeyboardWatch.Switched`).

## Model

| member | source | states |
|---|---|---|
| Tracing.AvailableCommands | internal/tracing/keyboard_metrics.go:33-45 | gui is offered iff Docker Desktop is active; watch is offered iff watch is configured; debug is never offered; gui comes before watch; no other entries |
| Tracing.KeyboardMetrics.constructor | internal/tracing/keyboard_metrics.go:33-45 | a new record is enabled, has an empty command log, and offers exactly AvailableCommands |
| Tracing.KeyboardMetrics.RegisterCommand | internal/tracing/keyboard_metrics.go:47-49 | the command is appended to the log and nothing else changes |
| Tracing.CommandSliceToString | internal/tracing/keyboard_metrics.go:51-57 | same length, each entry is the command's name in the same order, and each name maps back to its command |
| StringUtils.StringContains | pkg/utils/stringutils.go:26-34 | true iff some element of the list equals the needle |
| StringUtils.TrimLeft | pkg/utils/stringutils.go:38 | the leading white space of the string is dropped: the result is a suffix that starts with a non-space, and everything dropped is white space |
| StringUtils.TrimRight | pkg/utils/stringutils.go:38 | the trailing white space of the string is dropped: the result is a prefix that ends with a non-space, and everything dropped is white space |
| StringUtils.TrimSpace | pkg/utils/stringutils.go:38 | the result has no white space at either end, and it is empty iff the input is all white space |
| StringUtils.TrimSpacePadding | pkg/utils/stringutils.go:38 | trimming ignores any white space added on either side |
| StringUtils.ToLower | pkg/utils/stringutils.go:38 | same length, character by character lower-cased |
| StringUtils.TrimSpaceToLower | pkg/utils/stringutils.go:38 | trimming and lower-casing commute, so StringToBool's normalisation does not depend on their order |
| StringUtils.ParseBool | pkg/utils/stringutils.go:42 | succeeds exactly on the twelve spellings strconv.ParseBool accepts, is true exactly on the six true ones, and otherwise fails with a syntax error carrying the input |
| StringUtils.StringToBool | pkg/utils/stringutils.go:36-44 | true iff the trimmed, lower-cased input is "1", "t", "true" or "y" |
| StringUtils.StringToBoolIgnoresPadding | pkg/utils/stringutils.go:36-44 | white space around the input never changes StringToBool |
| StringUtils.StringToBoolIgnoresCase | pkg/utils/stringutils.go:36-44 | inputs that differ only in letter case give the same StringToBool |
| StringUtils.Getenv | pkg/utils/stringutils.go:47 | "" iff the variable is unset or set to ""; otherwise the variable's value |
| StringUtils.GetEnvStr | pkg/utils/stringutils.go:46-52 | fails with "not defined" iff the variable is unset or empty, otherwise returns its value |
| StringUtils.GetEnvBool | pkg/utils/stringutils.go:54-64 | succeeds iff the variable holds one of the twelve spellings exactly; the result is true iff the spelling is a true one; an unset or empty variable gives "not defined", anything else a syntax error carrying the value |
| StringUtils.GetEnvBoolAgreesWithStringToBool | pkg/utils/stringutils.go:36-64 | where GetEnvBool succeeds, the lenient StringToBool gives the same answer |
| StringUtils.GetEnvBoolHasNoYesShortcut | pkg/utils/stringutils.go:39-40 | "y" is true for StringToBool but a syntax error for GetEnvBool |
| StringUtils.GetEnvBoolDoesNotTrim | pkg/utils/stringutils.go:54-64 | a documented spelling with white space before it is rejected by GetEnvBool but read by StringToBool |
| StringUtils.GetEnvBoolIsCaseSensitive | pkg/utils/stringutils.go:54-64 | an undocumented capitalisation of a spelling (such as "tRUE") is rejected by GetEnvBool but read by StringToBool |
| PathUtils.IsSymbolicLink | pkg/utils/pathutils.go:67-76 | a path Lstat fails on is never a symbolic link |
| PathUtils.IsAbs | pkg/utils/pathutils.go:45 | a path is absolute iff it starts with the separator |
| PathUtils.Split | pkg/utils/pathutils.go:41 | at least one piece; no piece holds a separator; the first piece is empty iff the path is empty or starts with a separator |
| PathUtils.SplitJoin | pkg/utils/pathutils.go:41 | joining the pieces of a split with the separator gives back the path |
| PathUtils.JoinSplit | pkg/utils/pathutils.go:41 | splitting the join of separator-free pieces gives back the pieces |
| PathUtils.Join | pkg/utils/pathutils.go:53 | the directory is a prefix of the joined path, which ends with the element and is at most one separator longer than the two together |
| PathUtils.Prefixes | pkg/utils/pathutils.go:44-53 | every prefix the walk visits is non-empty |
| PathUtils.PrefixesGrow | pkg/utils/pathutils.go:44-53 | every prefix the walk visits strictly extends the starting directory and every prefix visited before it |
| PathUtils.PathPrefixesGrow | pkg/utils/pathutils.go:41-53 | the prefixes of a path are visited from shorter to longer, each a proper prefix of the later ones, and all are absolute when the path is |
| PathUtils.FirstSymlink | pkg/utils/pathutils.go:49-62 | the index found is a symbolic link and no earlier prefix is one; when none is found, no prefix is one |
| PathUtils.FirstSymlinkAfter | pkg/utils/pathutils.go:49-63 | prefixes that are not links only shift the index of the first link |
| PathUtils.GetSymbolicLink | pkg/utils/pathutils.go:40-65 | no link: two empty strings and no error; the first link resolved: its target and the prefix; the first link unresolved: empty strings and the resolution error |
| PathUtils.IndexOf | pkg/utils/pathutils.go:27 | the position found is an occurrence and no earlier position is one; when nothing is found, there is no occurrence |
| PathUtils.ReplaceFirst | pkg/utils/pathutils.go:27 | the first occurrence is replaced and the rest kept; with no occurrence the string is unchanged |
| PathUtils.ConvertSymbolicLink | pkg/utils/pathutils.go:18-29 | the path with its first linked prefix replaced by the target; the path itself when no prefix is a link; "" and the error when the link does not resolve |
| PathUtils.PrefixesAreLiteral | pkg/utils/pathutils.go:44-53 | from any starting directory, each prefix the walk builds is a literal prefix of the joined path |
| PathUtils.PathPrefixesAreLiteral | pkg/utils/pathutils.go:41-53 | for a path without doubled separators, every prefix the walk visits is a literal prefix of the path |
| PathUtils.ConvertSplicesTarget | pkg/utils/pathutils.go:18-29 | for such a path the rewrite is a splice: the target followed by the rest of the path after the linked prefix |
| ComposeDebug.LoadDebugConfig | pkg/compose/debug.go:64-85 | no `x-debug` key: the zero config; a nil value: no config and no error; otherwise the decoder's config, or its error with no config |
| ComposeDebug.Apply | pkg/compose/debug.go:88-107 | shell, host and command are taken from the options when set and kept otherwise; privileged and root are never changed |
| ComposeDebug.ApplyIdempotent | pkg/compose/debug.go:88-107 | applying the same options twice is applying them once |
| ComposeDebug.ApplyChangesOnlyOverridden | pkg/compose/debug.go:88-107 | apply leaves the config unchanged iff every option that is set already equals the config's field |
| ComposeDebug.ServiceExtensions | pkg/compose/debug.go:24 | a service of the project gives its own extensions; a service the project lacks has no `x-debug` key |
| ComposeDebug.MissingServiceLoadsZero | pkg/compose/debug.go:24 | debugging a service the project lacks loads the zero config with no error |
| ComposeDebug.Flag | pkg/compose/debug.go:113 | `--` followed by the field name lower-cased letter by letter: two longer than the name, with no capital letter after the dashes |
| ComposeDebug.FlagOfLowerCase | pkg/compose/debug.go:113 | a lower-case field name gives `--` followed by the name |
| ComposeDebug.Contribution | pkg/compose/debug.go:109-127 | true bool: the flag alone; false bool or empty string: nothing; any other value: the flag and the value |
| ComposeDebug.ConvertFieldsToArgs | pkg/compose/debug.go:109-127 | the result is the input list followed by the field's contribution |
| ComposeDebug.ConvertFieldsToArgsAppends | pkg/compose/debug.go:109-127 | the input list is a prefix of the result, which grows by 0, 1 or 2 elements according to the value |
| ComposeDebug.ArgsAfter | pkg/compose/debug.go:33-37 | the start is kept; the length grows by two per non-empty string and one per true bool; the host pair comes first; the zero config adds nothing |
| ComposeDebug.ArgsAfterSplits | pkg/compose/debug.go:33-37 | the flags do not depend on the start they are appended to |
| ComposeDebug.BuildArgs | pkg/compose/debug.go:32-37 | the list as written: five empty strings, then the flags in the order host, shell, privileged, root, command |
| ComposeDebug.BuildArgsIntended | pkg/compose/debug.go:32-37 | the list as intended: the flags alone |
| ComposeDebug.BlanksPrefixTheFlags | pkg/compose/debug.go:32 | the list as written is five empty strings followed by the intended list |
| ComposeDebug.ProcessResult | pkg/compose/debug.go:44-59 | never a panic; success iff the process completed; a failure carries the start or wait error's text |
| ComposeDebug.Debug | pkg/compose/debug.go:23-60 | it panics iff the loaded config is nil; otherwise the list is built from the overridden config, `dld attach <service>` is spawned, and the start or wait error is returned |
| ComposeDebug.DebugIntended | pkg/compose/debug.go:23-60 | it never panics; a load error is returned first; a nil config falls back to the zero config; the list has no blanks |
| ComposeDebug.DecodeFailureIsNilConfig | pkg/compose/debug.go:24-28 | a decode failure leaves the config nil, with the error, which Debug never reaches |
| ComposeDebug.DefaultsThenOverrides | pkg/compose/debug.go:64-72 | with no `x-debug` block the options alone decide the strings, and privileged and root stay off |
| Formatter.FloorDivBounds | cmd/formatter/shortcut.go:314-316 | the row count is the floor of length over width |
| Formatter.FullWidthTextOffset | cmd/formatter/shortcut.go:314-316 | text exactly one width long has offset 1, so it reserves two rows |
| Formatter.ShortTextOffset | cmd/formatter/shortcut.go:314-316 | text shorter than the width has offset 0 |
| Formatter.LinesOffsetBounds | cmd/formatter/shortcut.go:314-316 | the offset n is the floor of visible length over width: n widths fit in the text and n + 1 do not |
| Formatter.WholeSecondsTruncates | cmd/formatter/shortcut.go:46 | whole seconds keep the sign of the duration and drop the fraction toward zero, losing less than one second |
| Formatter.KeyboardError.ShouldDisplay | cmd/formatter/shortcut.go:45-47 | the banner is shown only when an error is stored |
| Formatter.KeyboardError.Added | cmd/formatter/shortcut.go:60-67 | a new error is stamped with the current time, ends with the message, and is displayed at once |
| Formatter.BannerVisibleWindow | cmd/formatter/shortcut.go:38-47 | the banner shows iff there is an error and fewer than 10 seconds have passed since it was raised |
| Formatter.AddedErrorExpires | cmd/formatter/shortcut.go:38-67 | a freshly added error shows for exactly the next 10 seconds |
| Formatter.KeyboardWatch.Switched | cmd/formatter/shortcut.go:85-87 | the watching flag flips and the cancel handle is kept |
| Formatter.KeyboardWatch.WithContext | cmd/formatter/shortcut.go:89-94 | the cancel handle is set and the flag kept |
| Formatter.SwitchTwice | cmd/formatter/shortcut.go:85-87 | switching twice restores the toggle |
| Formatter.WatchLabel | cmd/formatter/shortcut.go:198-202 | " Disable Watch" while watching, " Enable Watch" otherwise |
| Formatter.NavigationMenu | cmd/formatter/shortcut.go:188-204 | the watch entry alone without Desktop; with Desktop, the Desktop entry, a separator and the watch entry; the watch entry always ends it |
| Formatter.MenuHasDesktopEntryIffActive | cmd/formatter/shortcut.go:188-204 | the menu carries the Desktop entry and separator iff Desktop is active |
| Formatter.ErrorRows | cmd/formatter/shortcut.go:153-157 | the banner reserves rows iff it is displayed |
| Formatter.MenuRows | cmd/formatter/shortcut.go:159-162 | the menu always reserves at least one row |
| Formatter.BufferReservesAndReturns | cmd/formatter/shortcut.go:150-167 | createBuffer reserves the asked lines plus the banner's and menu's rows, at least one more than asked, and moves the cursor back up by exactly that many |
| Formatter.ClearMenuOps | cmd/formatter/shortcut.go:206-215 | the cursor is saved first and restored last; between them, two writes per terminal row, each a move down or a line clear |
| Formatter.CleanOps | cmd/formatter/shortcut.go:222-228 | two writes per terminal row, each a new line or a line clear |
| Formatter.ClearingPrintsNothing | cmd/formatter/shortcut.go:206-228 | clearing the menu and cleaning the terminal never print text |
| Formatter.BufferOps | cmd/formatter/shortcut.go:150-167 | createBuffer never prints text |
| Formatter.ErrorOpsShape | cmd/formatter/shortcut.go:49-58 | nothing is written iff the banner is not live; otherwise three writes, the last printing the stored error and the others printing nothing |
| Formatter.MenuPrintsMenuAndBanner | cmd/formatter/shortcut.go:169-186 | below INFO nothing is written; at INFO the cursor is saved first and restored last, the menu is printed just before, and the only texts printed are the menu and the live banner |
| Formatter.ShortcutKeyColor | cmd/formatter/shortcut.go:318-324 | the key in bold with colour code "38;2;0;0;0;48;2;255;255;255": black text on a white background |
| Formatter.DesktopLink | cmd/formatter/shortcut.go:236 | the dashboard link is the fixed prefix followed by the project name |
| Formatter.OpenDesktopEffects | cmd/formatter/shortcut.go:230-245 | a link-opening task is spawned iff Desktop is active |
| Formatter.StartWatchEffects | cmd/formatter/shortcut.go:247-272 | not configured: a not-configured report; configured and watching with a handle: a cancel; otherwise a watch run |
| Formatter.StartWatchCancelsOnlyRunningWatch | cmd/formatter/shortcut.go:257-260 | the watch is cancelled iff it is configured, running and has a handle |
| Formatter.RuneEffects | cmd/formatter/shortcut.go:279-284 | 'v' gives the Desktop effects, non-empty iff Desktop is active; 'w' gives the watch effects; any other rune gives none; never more than one effect |
| Formatter.CtrlCEffects | cmd/formatter/shortcut.go:286-298 | the keyboard is closed first and SIGINT is sent last |
| Formatter.CtrlCOutcome | cmd/formatter/shortcut.go:286-298 | Ctrl-C sends exactly one SIGINT, and cancels the watch iff it is running with a handle |
| Formatter.LogKeyboard.constructor | cmd/formatter/shortcut.go:116-137 | a new manager is at INFO level, not watching, with no error, and has hidden the cursor |
| Formatter.LogKeyboard.AllocateSpace | cmd/formatter/shortcut.go:306-312 | one clear-newline-home per line and nothing else changes |
| Formatter.LogKeyboard.ClearNavigationMenu | cmd/formatter/shortcut.go:206-215 | saves the cursor, goes down and clears each row of the terminal, and restores the cursor |
| Formatter.LogKeyboard.CleanTerminal | cmd/formatter/shortcut.go:222-228 | a newline and a clear per row of the terminal |
| Formatter.LogKeyboard.CreateBuffer | cmd/formatter/shortcut.go:150-167 | writes BufferOps and returns the rows it reserved, at least one more than asked |
| Formatter.LogKeyboard.PrintNavigationMenu | cmd/formatter/shortcut.go:169-186 | at INFO level, draws the live banner and the menu at the bottom rows inside save/restore cursor; otherwise nothing |
| Formatter.LogKeyboard.PrintKeyboardInfo | cmd/formatter/shortcut.go:139-147 | clears the menu, emits the caller's output, and at INFO level reserves space and redraws the menu |
| Formatter.LogKeyboard.PrintEnter | cmd/formatter/shortcut.go:217-220 | clears and redraws the menu; below INFO it only clears |
| Formatter.LogKeyboard.OpenDockerDesktop | cmd/formatter/shortcut.go:230-245 | spawns the link-opening task iff Desktop is active |
| Formatter.LogKeyboard.OpenLinkFinished | cmd/formatter/shortcut.go:237-241 | a failed open raises the "Could not open Docker Desktop" banner under "View" |
| Formatter.LogKeyboard.WatchNotConfiguredReported | cmd/formatter/shortcut.go:249-254 | the not-configured report raises a banner under "Watch" that is displayed at once |
| Formatter.LogKeyboard.WatchRunStarted | cmd/formatter/shortcut.go:261-263 | the watch run stores its cancel handle |
| Formatter.LogKeyboard.StartWatch | cmd/formatter/shortcut.go:247-272 | when configured, the toggle flips and the watch is cancelled or started by the toggle it had before the flip; when not configured, only the report |
| Formatter.LogKeyboard.HandleRune | cmd/formatter/shortcut.go:279-284 | 'v' opens Desktop, 'w' toggles watch, other runes do nothing |
| Formatter.LogKeyboard.HandleKey | cmd/formatter/shortcut.go:285-303 | Ctrl-C clears the menu, shows the cursor, silences the menu and runs CtrlCEffects; Enter redraws; Ctrl-L cleans; other keys do nothing |
| Formatter.LogKeyboard.HandleKeyEvents | cmd/formatter/shortcut.go:278-304 | the rune's action, then the key's action, with the whole new state |
| ComposeUp.Prelude | pkg/compose/up.go:37-60 | the create error is returned; without attach the start error is returned; in dry-run mode nil is returned; only an attached, non-dry run enters the loop |
| ComposeUp.Teardown | pkg/compose/up.go:82-95 | cancels the printer, schedules one Stop and clears `first` |
| ComposeUp.ForceKill | pkg/compose/up.go:137-145 | one more Kill and the loop returns; no Stop is scheduled and nothing else changes |
| ComposeUp.Step | pkg/compose/up.go:96-147 | an exited loop stays exited, and Stops, Kills and closes of doneCh are only ever added |
| ComposeUp.Run | pkg/compose/up.go:96-147 | over any events, an exited loop stays exited, and Stops, Kills and closes of doneCh are only ever added |
| ComposeUp.RunAppend | pkg/compose/up.go:96-147 | running events one more step is one more Step |
| ComposeUp.Turn | pkg/compose/up.go:97-146 | one turn of the select is Step |
| ComposeUp.EventLoop | pkg/compose/up.go:96-147 | the loop over the events computes Run |
| ComposeUp.InitialIsReachable | pkg/compose/up.go:74-81 | the loop's starting state satisfies its invariant, with no Stop yet |
| ComposeUp.StepKeepsReachable | pkg/compose/up.go:96-147 | every event keeps the invariant |
| ComposeUp.RunKeepsReachable | pkg/compose/up.go:96-147 | any sequence of events keeps the invariant |
| ComposeUp.KillOnlyAfterTeardown | pkg/compose/up.go:134-145 | at most one Kill, only after a teardown and as the loop's exit; the printer is cancelled once per Stop; doneCh is closed only once isTerminated is set |
| ComposeUp.RunStopsAtMostOnce | pkg/compose/up.go:82-95 | with the teardown guarded, a state with at most one Stop keeps at most one Stop |
| ComposeUp.AtMostOneStop | pkg/compose/up.go:82-95 | with Ctrl-C guarded or absent, at most one graceful Stop and at most one close of doneCh |
| ComposeUp.ExitIsFinal | pkg/compose/up.go:128-145 | after the loop returns, later events schedule no Stop or Kill, keep it exited, and leave `first` and the printer alone |
| ComposeUp.CtxDoneAfterTeardownIsIgnored | pkg/compose/up.go:130-133 | context cancellation after a teardown does nothing |
| ComposeUp.SecondSignalKills | pkg/compose/up.go:137-145 | a signal after the teardown schedules one Kill and ends the loop without another Stop |
| ComposeUp.FirstInterruptTearsDown | pkg/compose/up.go:130-136 | the first signal or context cancellation tears down |
| ComposeUp.StopThenDoneEndsLoop | pkg/compose/up.go:85-129 | a Stop finishing sets isTerminated, and the closed doneCh then ends the loop |
| ComposeUp.DoubleCtrlCStopsTwice | pkg/compose/up.go:100-103 | as written, two Ctrl-C presses schedule two Stops and close doneCh twice, with no Kill |
| ComposeUp.DoubleCtrlCGuardedKills | pkg/compose/up.go:100-145 | guarded by `first`, the second Ctrl-C kills: one Stop, one close, one Kill |
| ComposeUp.Finish | pkg/compose/up.go:177-196 | a start error is returned unless terminated; a non-zero exit code gives a status error with that code and the combined error text; otherwise the combined error |
| ComposeUp.MainReleasesLoop | pkg/compose/up.go:184-187 | the main path closes doneCh iff the stack was not terminated, and changes nothing else |
| ComposeUp.LateSignalClosesTwice | pkg/compose/up.go:134-187 | once the main path has closed doneCh the state is outside the loop invariant, and a signal then taken by the select starts a Stop that closes doneCh a second time |
| ComposeUp.Up | pkg/compose/up.go:36-197 | an early return per Prelude; otherwise the loop runs until start returns, a start error is returned unless terminated, doneCh is released, and the outcome is Finish |

## Left out

- Terminal I/O is a trace of operations, not a screen. Colouring (`ansiColor`, `navColor`, `lenAnsi`) is a parameter, and so are terminal height and width.
- `linesOffset` divides floats. Lengths and widths are natural numbers, so the model uses integer floor division.
- Time is an integer number of nanoseconds. `time.Since(...).Seconds()` truncated to an int is modelled as integer division toward zero.
- Goroutines and the `multierror.Group` are not modelled as threads. Each task the code spawns becomes an `Effect`, or in `compose up` a counted task plus a `StopReturned` event. The order of events is free, so both orders of a race are covered, but nothing is claimed about races.
- ComposeUp.Reachable, and the lemmas built on it (RunKeepsReachable, KillOnlyAfterTeardown, AtMostOneStop), cover the loop only until start returns. The main path's close of doneCh leaves the invariant, and a Stop started by a late signal can close doneCh again (ComposeUp.LateSignalClosesTwice). Nothing is claimed about the loop after that close.
- The printer goroutine of `compose up` (up.go:150-163) is left out. Its exit code is a parameter. The optional watch goroutine (up.go:165-174) is left out.
- `eg.Wait().ErrorOrNil()` in `compose up` is left out. Its combined error is a parameter.
- In `compose up`, the keyboard's `ClearInfo` and `PrintEnter` calls, the Ctrl-G link print and the "key pressed" print only write to the terminal, and the loop treats them as no-ops.
- The watch function's own errors and the build options handed to it are left out. So is `KeyboardError.error()`, which only reads the message.
- `open.Run`, `exec.Command`, `cmd.Start` and `cmd.Wait` are left out. Their outcome is a parameter (`succeeded`, `ProcessOutcome`).
- `mapstructure.Decode` is a function parameter.
- `os.Getenv` reads a map.
- `os.Lstat` and `filepath.EvalSymlinks` are maps.
- The debug printouts (`fmt.Println` and others) are left out.
- StringUtils.ToLower folds ASCII letters only, where `strings.ToLower` folds all of Unicode. This does not change which strings ParseBool accepts, since all of them are ASCII.
- PathUtils.Join models `filepath.Join` only for a clean directory and a plain element. Paths with "." or ".." components are excluded by a requires, because `filepath.Join` would clean them.
- PathUtils.GetSymbolicLink models the '/' separator only; Windows volume names are left out.
- Formatter.MenuHasDesktopEntryIffActive requires the coloured "V" key to be non-empty. The Go code tests the coloured string for emptiness, and a colouring function could in principle return "".
- Formatter.CtrlCEffects states only the first and last effects. The count of SIGINTs and the cancellation are in Formatter.CtrlCOutcome.
- `cmd/compose/debug.go` (the cobra command that fills `DebugOptions`) is not part of this model.
- NewKeyboardManager's global `KeyboardManager`, its signal channel and its watch function are left out. The SIGINT it sends is an `Effect`.
- `Apply` is a value update. In the Go code it writes through a pointer that nothing else shares.

## Findings

| source | as written | input that shows it | evidently intended | confidence | as-written member | corrected member |
|---|---|---|---|---|---|---|
| pkg/compose/debug.go:24-28 | `config.apply(options)` runs before the load error is checked, and `apply` dereferences the config | a service whose `x-debug` value fails to decode, or is nil: the config pointer is nil and `apply` panics, so the decode error is never returned and "Using default values" is never reached | return the load error first; fall back to the default config when it is nil | medium, not executed | ComposeDebug.Debug, ComposeDebug.DecodeFailureIsNilConfig | ComposeDebug.DebugIntended |
| pkg/compose/debug.go:32 | `make([]string, 5)` makes a list of five empty strings, which the flags are appended after | any config, for example host "h": the list is `["", "", "", "", "", "--host", "h"]` | an empty list with capacity five, `make([]string, 0, 5)`, which gives `["--host", "h"]` | high, not executed | ComposeDebug.BuildArgs, ComposeDebug.BlanksPrefixTheFlags | ComposeDebug.BuildArgsIntended |
| pkg/compose/up.go:100-103 | the Ctrl-C key calls `gracefulTeardown` without checking `first` | two Ctrl-C key events, each followed by its Stop finishing: two Stops run and `doneCh` is closed twice (a panic in Go). The signal path would have killed instead | a second Ctrl-C forces a kill, like the second signal ("press Ctrl+C again to force", up.go:84) | low, not executed: `keyboard.Close()` at up.go:101 may stop a second key from arriving | ComposeUp.DoubleCtrlCStopsTwice | ComposeUp.DoubleCtrlCGuardedKills, ComposeUp.AtMostOneStop |
