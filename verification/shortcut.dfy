/**
 * The keyboard menu shown under `compose up` (cmd/formatter/shortcut.go):
 * a small controller holding the log level, the watch toggle and a
 * transient error banner, which reacts to key presses and draws a footer
 * menu.
 *
 * Terminal writes are recorded in an output trace (`screen`); background
 * tasks, watch cancellation and the SIGINT hand-off are recorded in an
 * effect trace (`effects`). The colouring helpers are abstract functions
 * carried by a `Painter`. Time is an integer count of nanoseconds.
 */
module Formatter {
  import opened Wrappers

  // ---------------------------------------------------------------------
  // Abstract colouring and terminal output
  // ---------------------------------------------------------------------

  /**
   * The colouring helpers, which live outside this file: `ansiColor(code, text, bold)`,
   * `navColor(text)`, the visible length `lenAnsi` of a coloured string, and the
   * CYAN colour code.
   */
  datatype Painter = Painter(
    ansiColor: (string, string, bool) -> string,
    navColor: string -> string,
    lenAnsi: string -> nat,
    cyan: string)

  /** One write to the terminal. */
  datatype TermOp =
    | MoveCursorX(col: int)
    | MoveCursor(row: int, col: int)
    | MoveCursorUp(n: int)
    | MoveCursorDown(n: int)
    | SaveCursor
    | RestoreCursor
    | ClearLine
    | NewLine
    | HideCursor
    | ShowCursor
    | Print(text: string)

  /** `ops` written `n` times in a row; nothing when `n` is not positive. */
  function Repeat(ops: seq<TermOp>, n: int): (r: seq<TermOp>)
    decreases n
  {
    if n <= 0 then [] else Repeat(ops, n - 1) + ops
  }

  /** A trace segment that prints no text. */
  predicate PrintsNothing(ops: seq<TermOp>) {
    forall i :: 0 <= i < |ops| ==> !ops[i].Print?
  }

  lemma {:induction false} RepeatLength(ops: seq<TermOp>, n: int)
    ensures |Repeat(ops, n)| == (if n <= 0 then 0 else n * |ops|)
    decreases n
  {
    if n > 0 {
      RepeatLength(ops, n - 1);
    }
  }

  /** Writing `a` copies and then `b` copies is writing `a + b` copies. */
  lemma {:induction false} RepeatAdd(ops: seq<TermOp>, a: nat, b: nat)
    ensures Repeat(ops, a) + Repeat(ops, b) == Repeat(ops, a + b)
    decreases b
  {
    if b > 0 {
      RepeatAdd(ops, a, b - 1);
      assert Repeat(ops, a) + Repeat(ops, b) == (Repeat(ops, a) + Repeat(ops, b - 1)) + ops;
    }
  }

  /** Every write of a repetition is one of the repeated writes. */
  lemma {:induction false} RepeatElements(ops: seq<TermOp>, n: int)
    ensures forall i :: 0 <= i < |Repeat(ops, n)| ==> Repeat(ops, n)[i] in ops
    decreases n
  {
    if n > 0 {
      RepeatElements(ops, n - 1);
      var r := Repeat(ops, n - 1);
      assert Repeat(ops, n) == r + ops;
      forall i | 0 <= i < |r + ops|
        ensures (r + ops)[i] in ops
      {
        if i < |r| {
          assert (r + ops)[i] == r[i];
        } else {
          assert (r + ops)[i] == ops[i - |r|];
        }
      }
    }
  }

  /** Two segments that print nothing print nothing together. */
  lemma ConcatPrintsNothing(a: seq<TermOp>, b: seq<TermOp>)
    requires PrintsNothing(a) && PrintsNothing(b)
    ensures PrintsNothing(a + b)
  {
    forall i | 0 <= i < |a + b|
      ensures !(a + b)[i].Print?
    {
      if i < |a| {
        assert (a + b)[i] == a[i];
      } else {
        assert (a + b)[i] == b[i - |a|];
      }
    }
  }

  lemma {:induction false} RepeatPrintsNothing(ops: seq<TermOp>, n: int)
    requires PrintsNothing(ops)
    ensures PrintsNothing(Repeat(ops, n))
    decreases n
  {
    if n > 0 {
      RepeatPrintsNothing(ops, n - 1);
      var r := Repeat(ops, n - 1);
      assert Repeat(ops, n) == r + ops;
      forall i | 0 <= i < |r + ops|
        ensures !(r + ops)[i].Print?
      {
        if i < |r| {
          assert (r + ops)[i] == r[i];
        } else {
          assert (r + ops)[i] == ops[i - |r|];
        }
      }
    }
  }

  // ---------------------------------------------------------------------
  // Row arithmetic
  // ---------------------------------------------------------------------

  /**
   * Division of a non-negative count rounded down, by repeated subtraction,
   * so that row and time arithmetic stays linear for the verifier.
   */
  function FloorDiv(a: nat, w: nat): (q: nat)
    requires w > 0
    decreases a
  {
    if a < w then 0 else 1 + FloorDiv(a - w, w)
  }

  /** The quotient is the largest q with q * w <= a. */
  lemma {:induction false} FloorDivBounds(a: nat, w: nat)
    requires w > 0
    ensures FloorDiv(a, w) * w <= a < (FloorDiv(a, w) + 1) * w
    decreases a
  {
    if a >= w {
      FloorDivBounds(a - w, w);
      var q := FloorDiv(a - w, w);
      assert (q + 1) * w == q * w + w;
      assert (q + 2) * w == (q + 1) * w + w;
    }
  }

  /** linesOffset: how many whole terminal widths the visible text fills (rounded down). */
  function LinesOffset(p: Painter, s: string, width: int): (n: nat)
    requires width > 0
  {
    FloorDiv(p.lenAnsi(s), width)
  }

  /** The offset is the floor of the visible length over the width: n widths fit, n + 1 do not. */
  lemma LinesOffsetBounds(p: Painter, s: string, width: int)
    requires width > 0
    ensures var n := LinesOffset(p, s, width);
      n * width <= p.lenAnsi(s) < (n + 1) * width
  {
    FloorDivBounds(p.lenAnsi(s), width);
  }

  /** Text exactly one terminal width long has offset 1, so a block of it reserves two rows. */
  lemma FullWidthTextOffset(p: Painter, s: string, width: int)
    requires width > 0 && p.lenAnsi(s) == width
    ensures LinesOffset(p, s, width) == 1
    ensures LinesOffset(p, s, width) + 1 == 2
  {
    assert FloorDiv(width - width, width) == 0;
  }

  /** Text shorter than the width has offset 0: one row. */
  lemma ShortTextOffset(p: Painter, s: string, width: int)
    requires width > 0 && p.lenAnsi(s) < width
    ensures LinesOffset(p, s, width) == 0
  {
  }

  // ---------------------------------------------------------------------
  // The error banner (KeyboardError)
  // ---------------------------------------------------------------------

  /** DISPLAY_ERROR_TIME, in seconds. */
  const DisplayErrorTime: int := 10
  const NanosPerSecond: nat := 1_000_000_000

  /** Go's `int(d.Seconds())`: whole seconds of a duration, truncated toward zero. */
  function WholeSeconds(nanos: int): (s: int)
  {
    if nanos >= 0 then FloorDiv(nanos, NanosPerSecond) else -(FloorDiv(-nanos, NanosPerSecond) as int)
  }

  /**
   * The whole seconds keep the sign of the duration and drop the fraction
   * toward zero: less than one second of the duration is lost, either way.
   */
  lemma WholeSecondsTruncates(nanos: int)
    ensures var s := WholeSeconds(nanos);
      (nanos >= 0 ==> s >= 0 && s * NanosPerSecond <= nanos < (s + 1) * NanosPerSecond) &&
      (nanos < 0 ==> s <= 0 && (s - 1) * NanosPerSecond < nanos <= s * NanosPerSecond)
  {
    if nanos >= 0 {
      FloorDivBounds(nanos, NanosPerSecond);
    } else {
      FloorDivBounds(-nanos, NanosPerSecond);
    }
  }

  /** The stored error (nil when absent) and when it was stored, in nanoseconds. */
  datatype KeyboardError = KeyboardError(err: Option<string>, timeStart: int)
  {
    /** shoudlDisplay: an error is stored and fewer than DISPLAY_ERROR_TIME whole seconds have passed. */
    predicate ShouldDisplay(now: int)
      ensures ShouldDisplay(now) ==> err.Some?
    {
      err.Some? && WholeSeconds(now - timeStart) < DisplayErrorTime
    }

    /**
     * addError: stamp the current time and store the prefix, coloured and
     * followed by an arrow, two spaces and the message.
     */
    function Added(p: Painter, prefix: string, msg: string, now: int): (r: KeyboardError)
      ensures r.timeStart == now
      ensures r.err.Some? && |msg| <= |r.err.value| && r.err.value[|r.err.value| - |msg|..] == msg
      ensures r.ShouldDisplay(now)
    {
      var coloured := p.ansiColor(p.cyan, prefix + " \U{2192}", true);
      KeyboardError(Some(coloured + "  " + msg), now)
    }
  }

  /** No error is stored at first. */
  const NoError: KeyboardError := KeyboardError(None, 0)

  /**
   * The banner is visible exactly when an error is stored and less than ten
   * seconds (in nanoseconds) have passed since it was stored; a clock reading
   * before the stamp still shows it.
   */
  lemma BannerVisibleWindow(ke: KeyboardError, now: int)
    ensures ke.ShouldDisplay(now) <==>
      ke.err.Some? && now - ke.timeStart < DisplayErrorTime * NanosPerSecond
  {
    var elapsed := now - ke.timeStart;
    var s := WholeSeconds(elapsed);
    if elapsed >= 0 {
      FloorDivBounds(elapsed, NanosPerSecond);
      if s < DisplayErrorTime {
        assert s + 1 <= DisplayErrorTime;
        assert elapsed < (s + 1) * NanosPerSecond <= DisplayErrorTime * NanosPerSecond;
      } else {
        assert s * NanosPerSecond >= DisplayErrorTime * NanosPerSecond;
      }
    }
  }

  /** A stored error stays visible for ten seconds and is hidden from then on. */
  lemma AddedErrorExpires(ke: KeyboardError, p: Painter, prefix: string, msg: string, now: int, later: int)
    requires later >= now
    ensures ke.Added(p, prefix, msg, now).ShouldDisplay(later) <==> later - now < DisplayErrorTime * NanosPerSecond
  {
    BannerVisibleWindow(ke.Added(p, prefix, msg, now), later);
  }

  // ---------------------------------------------------------------------
  // The watch toggle (KeyboardWatch)
  // ---------------------------------------------------------------------

  /** Whether watch is on, and the cancel handle of the current watch run, if one was started. */
  datatype KeyboardWatch = KeyboardWatch(watching: bool, cancel: Option<nat>)
  {
    /** switchWatching: negate Watching; the cancel handle is kept. */
    function Switched(): (r: KeyboardWatch)
      ensures r.watching != watching && r.cancel == cancel
    {
      KeyboardWatch(!watching, cancel)
    }

    /** newContext: a fresh cancellable context whose cancel handle replaces the old one. */
    function WithContext(handle: nat): (r: KeyboardWatch)
      ensures r.watching == watching && r.cancel == Some(handle)
    {
      KeyboardWatch(watching, Some(handle))
    }
  }

  /** Two switches restore the original toggle. */
  lemma {:induction false} SwitchTwice(w: KeyboardWatch)
    ensures w.Switched().Switched() == w
  {
    var once := w.Switched();
    assert once.watching == !w.watching;
    assert once.Switched().watching == w.watching;
  }

  // ---------------------------------------------------------------------
  // The menu text
  // ---------------------------------------------------------------------

  /** Colour code of a shortcut key: black on white, composed as the code does. */
  const ShortcutKeyCode: string := "38;2" + ";" + "0;0;0" + ";" + "48;2" + ";" + "255;255;255"

  /** shortcutKeyColor: the key, bold, in the shortcut colours. */
  function ShortcutKeyColor(p: Painter, key: string): (r: string)
    ensures r == p.ansiColor("38;2;0;0;0;48;2;255;255;255", key, true)
  {
    assert ShortcutKeyCode == "38;2;0;0;0;48;2;255;255;255";
    p.ansiColor(ShortcutKeyCode, key, true)
  }

  const DesktopLabel: string := " View in Docker Desktop"
  const MenuSeparator: string := "   "

  /** The label of the watch entry, naming the action the key would take. */
  function WatchLabel(watching: bool): (r: string)
    ensures watching ==> r == " Disable Watch"
    ensures !watching ==> r == " Enable Watch"
  {
    (if watching then " Disable" else " Enable") + " Watch"
  }

  /** The Docker Desktop entry of the menu. */
  function DesktopSegment(p: Painter): string {
    ShortcutKeyColor(p, "V") + p.navColor(DesktopLabel)
  }

  /** The watch entry of the menu. */
  function WatchSegment(p: Painter, watching: bool): string {
    ShortcutKeyColor(p, "W") + p.navColor(WatchLabel(watching))
  }

  /**
   * navigationMenu: the Docker Desktop entry when Desktop is active, a
   * separator after it when it is not empty, then the watch entry.
   */
  function NavigationMenu(p: Painter, isDockerDesktopActive: bool, watching: bool): (r: string)
    ensures !isDockerDesktopActive ==> r == WatchSegment(p, watching)
    ensures isDockerDesktopActive && DesktopSegment(p) != "" ==>
      r == DesktopSegment(p) + p.navColor(MenuSeparator) + WatchSegment(p, watching)
    ensures |WatchSegment(p, watching)| <= |r| && r[|r| - |WatchSegment(p, watching)|..] == WatchSegment(p, watching)
  {
    var openDDInfo := if isDockerDesktopActive then DesktopSegment(p) else "";
    var watchInfo := if openDDInfo != "" then p.navColor(MenuSeparator) else "";
    var options := "";
    options + openDDInfo + (watchInfo + WatchSegment(p, watching))
  }

  /**
   * When the coloured "V" key is visible at all, the menu has the Desktop
   * entry and the separator exactly when Desktop is active, and otherwise
   * is the watch entry alone.
   */
  lemma MenuHasDesktopEntryIffActive(p: Painter, active: bool, watching: bool)
    requires ShortcutKeyColor(p, "V") != ""
    ensures active <==>
      NavigationMenu(p, active, watching) == DesktopSegment(p) + p.navColor(MenuSeparator) + WatchSegment(p, watching)
    ensures !active <==> NavigationMenu(p, active, watching) == WatchSegment(p, watching)
  {
    var d := DesktopSegment(p);
    var w := WatchSegment(p, watching);
    assert |d| > 0;
    assert |d + p.navColor(MenuSeparator) + w| > |w|;
  }

  // ---------------------------------------------------------------------
  // What each drawing step writes
  // ---------------------------------------------------------------------

  /** One reserved row: clear it, go to the next line, back to column 0. */
  const AllocOps: seq<TermOp> := [ClearLine, NewLine, MoveCursorX(0)]

  /** clearNavigationMenu: clear the `height` rows below the cursor and come back. */
  function ClearMenuOps(height: int): (r: seq<TermOp>)
    ensures |r| == 3 + (if height <= 0 then 0 else 2 * height)
    ensures r[0] == MoveCursorX(0) && r[1] == SaveCursor && r[|r| - 1] == RestoreCursor
    ensures forall i :: 2 <= i < |r| - 1 ==> r[i] == MoveCursorDown(1) || r[i] == ClearLine
  {
    var rows := Repeat([MoveCursorDown(1), ClearLine], height);
    RepeatLength([MoveCursorDown(1), ClearLine], height);
    RepeatElements([MoveCursorDown(1), ClearLine], height);
    var r := [MoveCursorX(0), SaveCursor] + rows + [RestoreCursor];
    assert forall i :: 2 <= i < |r| - 1 ==> r[i] == rows[i - 2];
    r
  }

  /** CleanTerminal: push `height` blank lines. */
  function CleanOps(height: int): (r: seq<TermOp>)
    ensures |r| == (if height <= 0 then 0 else 2 * height)
    ensures forall i :: 0 <= i < |r| ==> r[i] == NewLine || r[i] == ClearLine
  {
    RepeatLength([NewLine, ClearLine], height);
    RepeatElements([NewLine, ClearLine], height);
    Repeat([NewLine, ClearLine], height)
  }

  /** printError: the banner one row above the menu block, when it is live. */
  function ErrorOps(ke: KeyboardError, p: Painter, info: string, height: int, width: int, now: int): (r: seq<TermOp>)
    requires width > 0
  {
    if ke.ShouldDisplay(now) then
      var msg := ke.err.value;
      [MoveCursor(height - LinesOffset(p, info, width) - LinesOffset(p, msg, width) - 1, 0), ClearLine, Print(msg)]
    else []
  }

  /** printNavigationMenu: at INFO, the banner and then the menu on the bottom rows; otherwise nothing. */
  function MenuOps(level: LogLevel, ke: KeyboardError, p: Painter, menu: string, height: int, width: int, now: int): (r: seq<TermOp>)
    requires width > 0
  {
    if level == LogInfo then
      [MoveCursorX(0), SaveCursor] + ErrorOps(ke, p, menu, height, width, now)
      + [MoveCursor(height - LinesOffset(p, menu, width), 0), ClearLine, Print(menu), MoveCursorX(0), RestoreCursor]
    else []
  }

  /** The rows a live banner occupies in createBuffer, or 0. */
  function ErrorRows(ke: KeyboardError, p: Painter, width: int, now: int): (n: int)
    requires width > 0
    ensures n >= 0
    ensures n > 0 <==> ke.ShouldDisplay(now)
  {
    if ke.ShouldDisplay(now) then LinesOffset(p, ke.err.value, width) + 1 else 0
  }

  /** The rows the menu occupies in createBuffer. */
  function MenuRows(p: Painter, menu: string, width: int): (n: int)
    requires width > 0
    ensures n >= 1
  {
    LinesOffset(p, menu, width) + 1
  }

  /** createBuffer: reserve the given rows, the banner's rows, the menu's rows, then move back up over all of them. */
  function BufferOps(ke: KeyboardError, p: Painter, menu: string, lines: int, width: int, now: int): (r: seq<TermOp>)
    requires width > 0
    ensures PrintsNothing(r)
  {
    var e := ErrorRows(ke, p, width, now);
    var m := MenuRows(p, menu, width);
    var total := lines + e + m;
    RepeatPrintsNothing(AllocOps, lines);
    RepeatPrintsNothing(AllocOps, e);
    RepeatPrintsNothing(AllocOps, m);
    ConcatPrintsNothing(Repeat(AllocOps, lines), Repeat(AllocOps, e));
    ConcatPrintsNothing(Repeat(AllocOps, lines) + Repeat(AllocOps, e), Repeat(AllocOps, m));
    ConcatPrintsNothing(Repeat(AllocOps, lines) + Repeat(AllocOps, e) + Repeat(AllocOps, m),
      if total > 0 then [MoveCursorUp(total)] else []);
    Repeat(AllocOps, lines) + Repeat(AllocOps, e) + Repeat(AllocOps, m) + (if total > 0 then [MoveCursorUp(total)] else [])
  }

  /**
   * From a non-negative start, createBuffer reserves exactly `total` rows and
   * moves back up by `total`, where `total` is the start plus the banner's
   * offset + 1 when it is live plus the menu's offset + 1; `total` is at least 1.
   */
  lemma BufferReservesAndReturns(ke: KeyboardError, p: Painter, menu: string, lines: nat, width: int, now: int)
    requires width > 0
    ensures var total := lines
        + (if ke.ShouldDisplay(now) then LinesOffset(p, ke.err.value, width) + 1 else 0)
        + LinesOffset(p, menu, width) + 1;
      total >= lines + 1 &&
      BufferOps(ke, p, menu, lines, width, now) == Repeat(AllocOps, total) + [MoveCursorUp(total)]
  {
    var e := ErrorRows(ke, p, width, now);
    var m := MenuRows(p, menu, width);
    var a := Repeat(AllocOps, lines);
    var b := Repeat(AllocOps, e);
    var c := Repeat(AllocOps, m);
    RepeatAdd(AllocOps, lines, e);
    assert a + b == Repeat(AllocOps, lines + e);
    RepeatAdd(AllocOps, lines + e, m);
    assert a + b + c == Repeat(AllocOps, lines + e + m);
  }

  /**
   * Clearing the menu and cleaning the terminal never print text: they only
   * move the cursor, clear lines and start new lines.
   */
  lemma ClearingPrintsNothing(height: int)
    ensures PrintsNothing(ClearMenuOps(height))
    ensures PrintsNothing(CleanOps(height))
  {
  }

  /** The banner step writes nothing when the banner is not live, and otherwise prints the stored error after two cursor writes. */
  lemma ErrorOpsShape(ke: KeyboardError, p: Painter, info: string, height: int, width: int, now: int)
    requires width > 0
    ensures var r := ErrorOps(ke, p, info, height, width, now);
      (r == [] <==> !ke.ShouldDisplay(now)) &&
      (r != [] ==> |r| == 3 && !r[0].Print? && !r[1].Print? && r[2] == Print(ke.err.value))
  {
  }

  /**
   * Below INFO the menu step writes nothing. At INFO it saves the cursor
   * first, restores it last, and prints the menu just before; it prints only
   * the menu and, when it is live, the stored error one row above it.
   */
  lemma MenuPrintsMenuAndBanner(level: LogLevel, ke: KeyboardError, p: Painter, menu: string, height: int, width: int, now: int)
    requires width > 0
    ensures var r := MenuOps(level, ke, p, menu, height, width, now);
      (level != LogInfo ==> r == []) &&
      (level == LogInfo ==>
        |r| >= 7 && r[0] == MoveCursorX(0) && r[1] == SaveCursor && r[|r| - 3] == Print(menu) && r[|r| - 1] == RestoreCursor)
    ensures var r := MenuOps(level, ke, p, menu, height, width, now);
      forall i :: 0 <= i < |r| && r[i].Print? ==>
        r[i].text == menu || (ke.ShouldDisplay(now) && r[i].text == ke.err.value)
  {
    ErrorOpsShape(ke, p, menu, height, width, now);
    var r := MenuOps(level, ke, p, menu, height, width, now);
    if level == LogInfo {
      var e := ErrorOps(ke, p, menu, height, width, now);
      var tail := [MoveCursor(height - LinesOffset(p, menu, width), 0), ClearLine, Print(menu), MoveCursorX(0), RestoreCursor];
      assert r == [MoveCursorX(0), SaveCursor] + e + tail;
      forall i | 0 <= i < |r| && r[i].Print?
        ensures r[i].text == menu || (ke.ShouldDisplay(now) && r[i].text == ke.err.value)
      {
        if i < 2 {
        } else if i < 2 + |e| {
          assert r[i] == e[i - 2];
          assert e != [] && i - 2 == 2;
        } else {
          assert r[i] == tail[i - 2 - |e|];
        }
      }
    }
  }

  // ---------------------------------------------------------------------
  // The controller (LogKeyboard)
  // ---------------------------------------------------------------------

  /** KEYBOARD_LOG_LEVEL: NONE, INFO and DEBUG. */
  datatype LogLevel = LogNone | LogInfo | LogDebug

  /** Work handed to the background error group. */
  datatype Task =
    | OpenLink(link: string)      // open the Docker Desktop page; on failure report "View"
    | ReportWatchNotConfigured    // report "Watch" with the documentation link
    | RunWatch                    // take a fresh context and run the watch function

  /** Effects on the rest of the program. */
  datatype Effect =
    | Spawn(task: Task)
    | CancelWatch(handle: nat)
    | WaitTasks
    | CloseKeyboard
    | Interrupt                   // SIGINT sent on the signal channel

  /** The Docker Desktop page of a project. */
  const DesktopLinkPrefix: string := "docker-desktop://dashboard/apps/"

  function DesktopLink(projectName: string): (r: string)
    ensures DesktopLinkPrefix <= r && r[|DesktopLinkPrefix|..] == projectName
  {
    DesktopLinkPrefix + projectName
  }

  const WatchDocsLink: string := "https://docs.docker.com/compose/file-watch/"

  /** The message reported when watch is requested but not configured. */
  function WatchNotConfiguredMessage(p: Painter): string {
    "Watch is not yet configured. Learn more: " + p.ansiColor(p.cyan, WatchDocsLink, false)
  }

  /** openDockerDesktop: a task opening the project's page, only when Desktop is active. */
  function OpenDesktopEffects(isDockerDesktopActive: bool, projectName: string): (r: seq<Effect>)
    ensures isDockerDesktopActive <==> r != []
    ensures r != [] ==> r == [Spawn(OpenLink(DesktopLink(projectName)))]
  {
    if isDockerDesktopActive then [Spawn(OpenLink(DesktopLink(projectName)))] else []
  }

  /**
   * StartWatch: when watch is not configured, only a task reporting it;
   * otherwise, after the toggle is switched, cancel the current run when the
   * toggle is now off and a handle exists, and start a new run in every other case.
   */
  function StartWatchEffects(isWatchConfigured: bool, w: KeyboardWatch): (r: seq<Effect>)
    ensures |r| == 1
    ensures !isWatchConfigured ==> r == [Spawn(ReportWatchNotConfigured)]
    ensures isWatchConfigured && w.watching && w.cancel.Some? ==> r == [CancelWatch(w.cancel.value)]
    ensures isWatchConfigured && !(w.watching && w.cancel.Some?) ==> r == [Spawn(RunWatch)]
  {
    if !isWatchConfigured then [Spawn(ReportWatchNotConfigured)]
    else
      var switched := w.Switched();
      if !switched.watching && switched.cancel.Some? then [CancelWatch(switched.cancel.value)]
      else [Spawn(RunWatch)]
  }

  /** The first half of HandleKeyEvents: 'v' opens Desktop, 'w' toggles watch. */
  function RuneEffects(rune: char, projectName: string, isDockerDesktopActive: bool, isWatchConfigured: bool,
                       w: KeyboardWatch): (r: seq<Effect>)
    ensures rune != 'v' && rune != 'w' ==> r == []
    ensures rune == 'v' ==> (r != [] <==> isDockerDesktopActive) && r == OpenDesktopEffects(isDockerDesktopActive, projectName)
    ensures rune == 'w' ==> r == StartWatchEffects(isWatchConfigured, w)
    ensures |r| <= 1
  {
    if rune == 'v' then OpenDesktopEffects(isDockerDesktopActive, projectName)
    else if rune == 'w' then StartWatchEffects(isWatchConfigured, w)
    else []
  }

  /** Ctrl-C: close the keyboard, cancel and wait for a running watch, then send SIGINT. */
  function CtrlCEffects(w: KeyboardWatch): (r: seq<Effect>)
    ensures |r| >= 2 && r[0] == CloseKeyboard && r[|r| - 1] == Interrupt
  {
    var cancelAndWait := if w.watching && w.cancel.Some? then [CancelWatch(w.cancel.value), WaitTasks] else [];
    [CloseKeyboard] + cancelAndWait + [Interrupt]
  }

  /** A key press: a rune and a special key, as the keyboard library reports it. */
  datatype Key = NoKey | KeyCtrlC | KeyEnter | KeyCtrlL | OtherKey(code: int)
  datatype KeyEvent = KeyEvent(rune: char, key: Key)

  class LogKeyboard {
    var kError: KeyboardError
    var watch: KeyboardWatch
    const isDockerDesktopActive: bool
    const isWatchConfigured: bool
    var logLevel: LogLevel
    const painter: Painter
    /** Every write to the terminal so far. */
    var screen: seq<TermOp>
    /** Every effect on the rest of the program so far. */
    var effects: seq<Effect>

    /** NewKeyboardManager: INFO level, watch off with no handle, no error, cursor hidden. */
    constructor (isDockerDesktopActive: bool, isWatchConfigured: bool, painter: Painter)
      ensures this.isDockerDesktopActive == isDockerDesktopActive
      ensures this.isWatchConfigured == isWatchConfigured
      ensures this.painter == painter
      ensures logLevel == LogInfo
      ensures watch == KeyboardWatch(false, None)
      ensures kError == NoError
      ensures screen == [HideCursor] && effects == []
    {
      this.isDockerDesktopActive := isDockerDesktopActive;
      this.isWatchConfigured := isWatchConfigured;
      this.painter := painter;
      logLevel := LogInfo;
      watch := KeyboardWatch(false, None);
      kError := NoError;
      screen := [HideCursor];
      effects := [];
    }

    /** The menu for the current state. */
    function Menu(): string
      reads this`watch
    {
      NavigationMenu(painter, isDockerDesktopActive, watch.watching)
    }

    /** allocateSpace: reserve `lines` rows, one at a time. */
    method AllocateSpace(lines: int)
      modifies this
      ensures screen == old(screen) + Repeat(AllocOps, lines)
      ensures kError == old(kError) && watch == old(watch) && logLevel == old(logLevel) && effects == old(effects)
    {
      if lines <= 0 {
        return;
      }
      var i := 0;
      while i < lines
        invariant 0 <= i <= lines
        invariant screen == old(screen) + Repeat(AllocOps, i)
        invariant kError == old(kError) && watch == old(watch) && logLevel == old(logLevel) && effects == old(effects)
      {
        screen := screen + [ClearLine] + [NewLine] + [MoveCursorX(0)];
        i := i + 1;
      }
    }

    /** clearNavigationMenu: clear the rows below the cursor, keeping the cursor where it was. */
    method ClearNavigationMenu(height: int)
      modifies this
      ensures screen == old(screen) + ClearMenuOps(height)
      ensures kError == old(kError) && watch == old(watch) && logLevel == old(logLevel) && effects == old(effects)
    {
      screen := screen + [MoveCursorX(0), SaveCursor];
      ghost var start := screen;
      var i := 0;
      while i < height
        invariant height > 0 ==> 0 <= i <= height
        invariant height <= 0 ==> i == 0
        invariant screen == start + Repeat([MoveCursorDown(1), ClearLine], i)
        invariant kError == old(kError) && watch == old(watch) && logLevel == old(logLevel) && effects == old(effects)
      {
        screen := screen + [MoveCursorDown(1)] + [ClearLine];
        i := i + 1;
      }
      assert height <= 0 ==> Repeat([MoveCursorDown(1), ClearLine], height) == [];
      screen := screen + [RestoreCursor];
    }

    /** CleanTerminal: push the screen contents up by `height` blank lines. */
    method CleanTerminal(height: int)
      modifies this
      ensures screen == old(screen) + CleanOps(height)
      ensures kError == old(kError) && watch == old(watch) && logLevel == old(logLevel) && effects == old(effects)
    {
      var i := 0;
      while i < height
        invariant height > 0 ==> 0 <= i <= height
        invariant height <= 0 ==> i == 0
        invariant screen == old(screen) + Repeat([NewLine, ClearLine], i)
        invariant kError == old(kError) && watch == old(watch) && logLevel == old(logLevel) && effects == old(effects)
      {
        screen := screen + [NewLine] + [ClearLine];
        i := i + 1;
      }
    }

    /** createBuffer: make room below the output for the banner and the menu, and return the moved-up row count. */
    method CreateBuffer(lines: int, width: int, now: int) returns (moved: int)
      requires width > 0
      modifies this
      ensures screen == old(screen) + BufferOps(kError, painter, Menu(), lines, width, now)
      ensures moved == lines + ErrorRows(kError, painter, width, now) + MenuRows(painter, Menu(), width)
      ensures moved >= lines + 1
      ensures kError == old(kError) && watch == old(watch) && logLevel == old(logLevel) && effects == old(effects)
    {
      ghost var s0 := screen;
      ghost var e := ErrorRows(kError, painter, width, now);
      moved := lines;
      AllocateSpace(lines);
      ghost var s1 := screen;
      if kError.ShouldDisplay(now) {
        var extraLines := LinesOffset(painter, kError.err.value, width) + 1;
        AllocateSpace(extraLines);
        moved := moved + extraLines;
      }
      assert screen == s1 + Repeat(AllocOps, e);
      var infoMessage := Menu();
      var extraLines := LinesOffset(painter, infoMessage, width) + 1;
      ghost var s2 := screen;
      AllocateSpace(extraLines);
      moved := moved + extraLines;
      ghost var reserved := Repeat(AllocOps, lines) + Repeat(AllocOps, e) + Repeat(AllocOps, extraLines);
      AppendAssoc(s0, Repeat(AllocOps, lines), Repeat(AllocOps, e));
      AppendAssoc(s0, Repeat(AllocOps, lines) + Repeat(AllocOps, e), Repeat(AllocOps, extraLines));
      assert screen == s0 + reserved;
      var up: seq<TermOp> := [];
      if moved > 0 {
        up := [MoveCursorUp(moved)];
        screen := screen + up;
      }
      AppendAssoc(s0, reserved, up);
      assert BufferOps(kError, painter, infoMessage, lines, width, now) == reserved + up;
      assert screen == s0 + BufferOps(kError, painter, infoMessage, lines, width, now);
    }

    /** printNavigationMenu: at INFO, draw the banner and the menu on the bottom rows. */
    method PrintNavigationMenu(height: int, width: int, now: int)
      requires width > 0
      modifies this
      ensures screen == old(screen) + MenuOps(logLevel, kError, painter, Menu(), height, width, now)
      ensures kError == old(kError) && watch == old(watch) && logLevel == old(logLevel) && effects == old(effects)
    {
      if logLevel == LogInfo {
        var menu := Menu();
        var ops := [MoveCursorX(0), SaveCursor];
        var errOps := [];
        if kError.ShouldDisplay(now) {
          var errMessage := kError.err.value;
          errOps := [MoveCursor(height - LinesOffset(painter, menu, width) - LinesOffset(painter, errMessage, width) - 1, 0),
                     ClearLine, Print(errMessage)];
        }
        assert errOps == ErrorOps(kError, painter, menu, height, width, now);
        ops := ops + errOps
          + [MoveCursor(height - LinesOffset(painter, menu, width), 0), ClearLine, Print(menu), MoveCursorX(0), RestoreCursor];
        assert ops == MenuOps(logLevel, kError, painter, menu, height, width, now);
        screen := screen + ops;
      }
    }

    /**
     * PrintKeyboardInfo: clear the menu, let the caller print (`printed`), and
     * at INFO reserve room and redraw the menu. Below INFO only the clearing
     * and the caller's output are written.
     */
    method PrintKeyboardInfo(printed: seq<TermOp>, height: int, width: int, now: int)
      requires width > 0
      modifies this
      ensures logLevel == LogInfo ==>
        screen == old(screen) + ClearMenuOps(height) + printed
          + BufferOps(kError, painter, Menu(), 0, width, now) + MenuOps(logLevel, kError, painter, Menu(), height, width, now)
      ensures logLevel != LogInfo ==> screen == old(screen) + ClearMenuOps(height) + printed
      ensures kError == old(kError) && watch == old(watch) && logLevel == old(logLevel) && effects == old(effects)
    {
      ClearNavigationMenu(height);
      screen := screen + printed;
      if logLevel == LogInfo {
        var _ := CreateBuffer(0, width, now);
        PrintNavigationMenu(height, width, now);
      }
    }

    /** PrintEnter: clear the menu and redraw it (drawing nothing below INFO). */
    method PrintEnter(height: int, width: int, now: int)
      requires width > 0
      modifies this
      ensures screen == old(screen) + ClearMenuOps(height) + MenuOps(logLevel, kError, painter, Menu(), height, width, now)
      ensures logLevel != LogInfo ==> screen == old(screen) + ClearMenuOps(height)
      ensures kError == old(kError) && watch == old(watch) && logLevel == old(logLevel) && effects == old(effects)
    {
      ClearNavigationMenu(height);
      PrintNavigationMenu(height, width, now);
    }

    /** openDockerDesktop: when Desktop is active, start a task that opens the project's page. */
    method OpenDockerDesktop(projectName: string)
      modifies this
      ensures effects == old(effects) + OpenDesktopEffects(isDockerDesktopActive, projectName)
      ensures kError == old(kError) && watch == old(watch) && logLevel == old(logLevel) && screen == old(screen)
    {
      if !isDockerDesktopActive {
        return;
      }
      var link := DesktopLink(projectName);
      effects := effects + [Spawn(OpenLink(link))];
    }

    /** The link task finished: a failure stores the "View" error banner. */
    method OpenLinkFinished(succeeded: bool, now: int)
      modifies this
      ensures kError == if succeeded then old(kError) else old(kError).Added(painter, "View", "Could not open Docker Desktop", now)
      ensures watch == old(watch) && logLevel == old(logLevel) && screen == old(screen) && effects == old(effects)
    {
      if !succeeded {
        kError := kError.Added(painter, "View", "Could not open Docker Desktop", now);
      }
    }

    /** The not-configured task ran: it stores the "Watch" error banner. */
    method WatchNotConfiguredReported(now: int)
      modifies this
      ensures kError == old(kError).Added(painter, "Watch", WatchNotConfiguredMessage(painter), now)
      ensures kError.ShouldDisplay(now)
      ensures watch == old(watch) && logLevel == old(logLevel) && screen == old(screen) && effects == old(effects)
    {
      kError := kError.Added(painter, "Watch", WatchNotConfiguredMessage(painter), now);
    }

    /** The watch task started: newContext stores the new run's cancel handle. */
    method WatchRunStarted(handle: nat)
      modifies this
      ensures watch == old(watch).WithContext(handle)
      ensures watch.watching == old(watch).watching && watch.cancel == Some(handle)
      ensures kError == old(kError) && logLevel == old(logLevel) && screen == old(screen) && effects == old(effects)
    {
      watch := watch.WithContext(handle);
    }

    /**
     * StartWatch: when watch is not configured, only report it; otherwise flip
     * the toggle, then cancel the current run if the toggle is now off and a
     * handle exists, or start a new run.
     */
    method StartWatch()
      modifies this
      ensures !isWatchConfigured ==> watch == old(watch)
      ensures isWatchConfigured ==> watch == old(watch).Switched()
      ensures effects == old(effects) + StartWatchEffects(isWatchConfigured, old(watch))
      ensures kError == old(kError) && logLevel == old(logLevel) && screen == old(screen)
    {
      if !isWatchConfigured {
        effects := effects + [Spawn(ReportWatchNotConfigured)];
        return;
      }
      watch := watch.Switched();
      if !watch.watching && watch.cancel.Some? {
        effects := effects + [CancelWatch(watch.cancel.value)];
      } else {
        effects := effects + [Spawn(RunWatch)];
      }
    }

    /** The rune switch of HandleKeyEvents: 'v' opens Desktop, 'w' toggles watch, any other rune does nothing. */
    method HandleRune(rune: char, projectName: string)
      modifies this
      ensures watch == if rune == 'w' && isWatchConfigured then old(watch).Switched() else old(watch)
      ensures effects == old(effects) + RuneEffects(rune, projectName, isDockerDesktopActive, isWatchConfigured, old(watch))
      ensures kError == old(kError) && logLevel == old(logLevel) && screen == old(screen)
    {
      if rune == 'v' {
        OpenDockerDesktop(projectName);
      } else if rune == 'w' {
        StartWatch();
      } else {
        assert RuneEffects(rune, projectName, isDockerDesktopActive, isWatchConfigured, watch) == [];
      }
    }

    /**
     * The key switch of HandleKeyEvents. Ctrl-C closes the keyboard, clears
     * the menu, shows the cursor, drops to NONE, cancels and waits for a
     * running watch, and sends SIGINT; Enter redraws the menu; Ctrl-L pushes
     * the screen up; other keys do nothing.
     */
    method HandleKey(key: Key, height: int, width: int, now: int)
      requires width > 0
      modifies this
      ensures watch == old(watch) && kError == old(kError)
      ensures logLevel == if key == KeyCtrlC then LogNone else old(logLevel)
      ensures effects == old(effects) + (if key == KeyCtrlC then CtrlCEffects(watch) else [])
      ensures key == KeyCtrlC ==> screen == old(screen) + ClearMenuOps(height) + [ShowCursor]
      ensures key == KeyEnter ==>
        screen == old(screen) + ClearMenuOps(height) + MenuOps(logLevel, kError, painter, Menu(), height, width, now)
      ensures key == KeyCtrlL ==> screen == old(screen) + CleanOps(height)
      ensures !(key.KeyCtrlC? || key.KeyEnter? || key.KeyCtrlL?) ==> screen == old(screen) && effects == old(effects)
    {
      match key {
        case KeyCtrlC =>
          var sent := [CloseKeyboard];
          ClearNavigationMenu(height);
          screen := screen + [ShowCursor];
          logLevel := LogNone;
          if watch.watching && watch.cancel.Some? {
            sent := sent + [CancelWatch(watch.cancel.value), WaitTasks];
          }
          sent := sent + [Interrupt];
          effects := effects + sent;
        case KeyEnter =>
          PrintEnter(height, width, now);
        case KeyCtrlL =>
          CleanTerminal(height);
        case _ =>
          assert effects + [] == effects;
      }
    }

    /**
     * HandleKeyEvents: the rune first, then the key, as two independent
     * switches on one event.
     */
    method HandleKeyEvents(event: KeyEvent, projectName: string, height: int, width: int, now: int)
      requires width > 0
      modifies this
      ensures watch == if event.rune == 'w' && isWatchConfigured then old(watch).Switched() else old(watch)
      ensures logLevel == if event.key == KeyCtrlC then LogNone else old(logLevel)
      ensures kError == old(kError)
      ensures effects == old(effects)
        + RuneEffects(event.rune, projectName, isDockerDesktopActive, isWatchConfigured, old(watch))
        + (if event.key == KeyCtrlC then CtrlCEffects(watch) else [])
      ensures event.key == KeyCtrlC ==> screen == old(screen) + ClearMenuOps(height) + [ShowCursor]
      ensures event.key == KeyEnter ==>
        screen == old(screen) + ClearMenuOps(height) + MenuOps(logLevel, kError, painter, Menu(), height, width, now)
      ensures event.key == KeyCtrlL ==> screen == old(screen) + CleanOps(height)
      ensures !(event.key.KeyCtrlC? || event.key.KeyEnter? || event.key.KeyCtrlL?) ==> screen == old(screen)
    {
      HandleRune(event.rune, projectName);
      HandleKey(event.key, height, width, now);
    }
  }

  /**
   * Ctrl-C, whatever the state: the level drops to NONE, watch stays as it
   * was, exactly one SIGINT is sent, and the watch is cancelled only when it
   * is on and a handle exists.
   */
  lemma CtrlCOutcome(w: KeyboardWatch)
    ensures multiset(CtrlCEffects(w))[Interrupt] == 1
    ensures (exists h :: CancelWatch(h) in CtrlCEffects(w)) <==> w.watching && w.cancel.Some?
  {
    var r := CtrlCEffects(w);
    if w.watching && w.cancel.Some? {
      assert r == [CloseKeyboard, CancelWatch(w.cancel.value), WaitTasks, Interrupt];
      assert r[1] == CancelWatch(w.cancel.value);
    } else {
      assert r == [CloseKeyboard, Interrupt];
    }
  }

  /** Turning watch on or off never cancels a run that is off or has no handle. */
  lemma StartWatchCancelsOnlyRunningWatch(configured: bool, w: KeyboardWatch)
    ensures (exists h :: CancelWatch(h) in StartWatchEffects(configured, w)) <==>
      configured && w.watching && w.cancel.Some?
  {
    if configured && w.watching && w.cancel.Some? {
      assert CancelWatch(w.cancel.value) in StartWatchEffects(configured, w);
    }
  }
}
