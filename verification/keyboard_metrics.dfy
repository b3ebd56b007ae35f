/**
 * The keyboard-shortcut metrics record (internal/tracing/keyboard_metrics.go):
 * which shortcut commands the menu offers and, append-only, which ones the
 * user has invoked.
 */
module Tracing {

  /** A shortcut command, reported by its name. */
  datatype Command = Command(name: string)

  const GUI: Command := Command("gui")
  const WATCH: Command := Command("watch")
  const DEBUG: Command := Command("debug")

  /**
   * The commands the menu offers: the Docker Desktop link when Desktop is
   * active, then the watch toggle when watch is configured.
   */
  function AvailableCommands(isDockerDesktopActive: bool, isWatchConfigured: bool): (r: seq<Command>)
    ensures GUI in r <==> isDockerDesktopActive
    ensures WATCH in r <==> isWatchConfigured
    ensures DEBUG !in r
    ensures |r| == (if isDockerDesktopActive then 1 else 0) + (if isWatchConfigured then 1 else 0)
    ensures forall i, j :: 0 <= i < |r| && 0 <= j < |r| && r[i] == GUI && r[j] == WATCH ==> i < j
  {
    (if isDockerDesktopActive then [GUI] else []) + (if isWatchConfigured then [WATCH] else [])
  }

  class KeyboardMetrics {
    var enabled: bool
    var command: seq<Command>
    var commandAvailable: seq<Command>

    /** NewKeyboardMetrics: enabled, nothing recorded yet, and the offered commands appended one by one. */
    constructor (isDockerDesktopActive: bool, isWatchConfigured: bool)
      ensures enabled
      ensures command == []
      ensures commandAvailable == AvailableCommands(isDockerDesktopActive, isWatchConfigured)
    {
      enabled := true;
      command := [];
      commandAvailable := [];
      if isDockerDesktopActive {
        commandAvailable := commandAvailable + [GUI];
      }
      if isWatchConfigured {
        commandAvailable := commandAvailable + [WATCH];
      }
    }

    /** RegisterCommand: the command is appended to the log; nothing else changes. */
    method RegisterCommand(c: Command)
      modifies this
      ensures command == old(command) + [c]
      ensures enabled == old(enabled) && commandAvailable == old(commandAvailable)
    {
      command := command + [c];
    }
  }

  /** CommandSliceToString: each command's name, in the same order; each name gives its command back. */
  method CommandSliceToString(lst: seq<Command>) returns (result: seq<string>)
    ensures |result| == |lst|
    ensures forall i :: 0 <= i < |lst| ==> result[i] == lst[i].name
    ensures forall i :: 0 <= i < |lst| ==> Command(result[i]) == lst[i]
  {
    result := [];
    for k := 0 to |lst|
      invariant |result| == k
      invariant forall i :: 0 <= i < k ==> result[i] == lst[i].name
    {
      result := result + [lst[k].name];
    }
  }
}
