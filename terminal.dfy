/**
 * The session state machine of the `TerminalWx` panel: command dispatch
 * (`ExecuteCommand`), command-history navigation and prompt protection in
 * the key handlers, and the vim-mode flag.
 *
 * The styled text control is modelled by its contents `buffer` and its
 * caret position `caret`. The toolkit behaviour the model relies on:
 * `AppendText` adds text at the end without moving the caret, `ClearAll`
 * empties the control and puts the caret at 0, and replacing the target
 * `[inputStart, end)` moves a caret that was inside it to `inputStart`
 * (Scintilla's rule for a deleted range; an insertion at the caret leaves
 * it in place).
 */
module Terminal {
  import opened Wrappers
  import opened Text

  datatype VimMode = Normal | Insert | Visual | Command

  /** The keys `OnKeyDown` distinguishes; every other key is `Other`. */
  datatype Key = Escape | Return | Up | Down | Home | Back | Other(code: int)

  /** How `ExecuteCommand` treats a command line. */
  datatype CommandKind = ClearScreen | ChangeDirectory(path: string) | External

  // ---------------------------------------------------------------------
  // Command dispatch
  // ---------------------------------------------------------------------

  /**
   * The builtins are recognised on the lower-cased command: exactly `cls`
   * or `clear` clears the screen; a line starting with `cd ` changes
   * directory to the rest of the line with trailing white space trimmed;
   * anything else is launched.
   */
  function Classify(command: string): (k: CommandKind)
    ensures k == ClearScreen <==> Lower(command) == "cls" || Lower(command) == "clear"
    ensures k.ChangeDirectory? <==> k != ClearScreen && StartsWith(Lower(command), "cd ")
    ensures k.ChangeDirectory? ==> |command| >= 3 && k.path == TrimRight(command[3..])
  {
    var lower := Lower(command);
    if lower == "cls" || lower == "clear" then ClearScreen
    else if StartsWith(lower, "cd ") then ChangeDirectory(TrimRight(command[3..]))
    else External
  }

  /** `cd` written in any case, followed by any path, is a directory change. */
  lemma CdInAnyCase(prefix: string, rest: string)
    requires Lower(prefix) == "cd "
    ensures Classify(prefix + rest) == ChangeDirectory(TrimRight(rest))
  {
    LowerAppend(prefix, rest);
    var lower := Lower(prefix + rest);
    assert lower[..3] == "cd ";
    assert lower[1] == 'd';
    assert (prefix + rest)[3..] == rest;
  }

  predicate EndsInSeparator(p: string) {
    |p| > 0 && (p[|p| - 1] == '\\' || p[|p| - 1] == '/')
  }

  /**
   * The directory a successful `cd` stores: the path itself when it
   * already ends in `\` or `/`, otherwise the path with `\` appended.
   * The path is never empty here (`wxString::Last` asserts on an empty
   * string, and no directory has the empty name).
   */
  function NormalizeDirectory(p: string): (d: string)
    requires p != []
    ensures EndsInSeparator(d)
    ensures |p| <= |d| <= |p| + 1 && d[..|p|] == p
    ensures EndsInSeparator(p) <==> d == p
    ensures !EndsInSeparator(p) ==> d == p + "\\"
  {
    if EndsInSeparator(p) then p else p + "\\"
  }

  /** Normalising a stored directory again changes nothing. */
  lemma NormalizeIdempotent(p: string)
    requires p != []
    ensures NormalizeDirectory(NormalizeDirectory(p)) == NormalizeDirectory(p)
  {
  }

  /**
   * The line handed to `wxExecute`: the directory and the command are
   * pasted in verbatim, without quoting.
   */
  function LaunchLine(dir: string, command: string): (line: string)
    ensures |line| == 18 + |dir| + |command|
    ensures line[..14] == "cmd.exe /c cd "
    ensures line[14..14 + |dir|] == dir
    ensures line[14 + |dir|..18 + |dir|] == " && "
    ensures line[18 + |dir|..] == command
  {
    "cmd.exe /c cd " + dir + " && " + command
  }

  // ---------------------------------------------------------------------
  // Command history
  // ---------------------------------------------------------------------

  /** What an arrow key does to the history cursor and the input line. */
  datatype HistoryMove = Show(at: nat) | ClearInput | Stay

  /** The history cursor after `m`, for a history of `size` entries. */
  function IndexAfter(m: HistoryMove, index: nat, size: nat): nat {
    match m
    case Show(at) => at
    case ClearInput => size
    case Stay => index
  }

  /** Up: step back one entry unless the cursor is already at the first. */
  function UpMove(index: nat, size: nat): (m: HistoryMove)
    requires index <= size
    ensures m.Show? ==> m.at < size
    ensures m != ClearInput
    ensures m == Stay <==> index == 0
    ensures IndexAfter(m, index, size) <= index
    ensures index > 0 ==> m == Show(index - 1)
  {
    if index > 0 then Show(index - 1) else Stay
  }

  /**
   * Down, with the guard the code evidently intends (`index + 1 < size`):
   * step forward one entry, or go one past the last entry and clear the
   * input, or stay when the cursor is already past the end.
   */
  function DownMove(index: nat, size: nat): (m: HistoryMove)
    requires index <= size
    ensures m.Show? ==> m.at < size
    ensures m == Stay <==> index == size
    ensures m == ClearInput <==> index + 1 == size
    ensures IndexAfter(m, index, size) <= size
    ensures index < size ==> IndexAfter(m, index, size) == index + 1
  {
    if index + 1 < size then Show(index + 1)
    else if index + 1 == size then ClearInput
    else Stay
  }

  /** Down undoes Up. */
  lemma DownUndoesUp(index: nat, size: nat)
    requires 0 < index <= size
    ensures IndexAfter(DownMove(index - 1, size), index - 1, size) == index
  {
  }

  /** Up undoes Down. */
  lemma UpUndoesDown(index: nat, size: nat)
    requires index < size
    ensures var next := IndexAfter(DownMove(index, size), index, size);
            IndexAfter(UpMove(next, size), next, size) == index
  {
  }

  /** `size_t` is 64 bits wide on the target platform. */
  const SIZE_T_MODULUS: nat := 0x1_0000_0000_0000_0000

  /** `a - b` evaluated in `size_t`: it wraps around below zero. */
  function SizeTSub(a: nat, b: nat): (r: nat)
    requires a < SIZE_T_MODULUS && b < SIZE_T_MODULUS
    ensures r < SIZE_T_MODULUS
    ensures a >= b ==> r == a - b
    ensures a < b ==> r == SIZE_T_MODULUS - (b - a)
  {
    (a - b) % SIZE_T_MODULUS
  }

  /**
   * Down as written, with `m_commandHistory.size() - 1` computed in
   * `size_t`: it shows entry `index + 1` when that entry exists, and also
   * whenever the history is empty (short of the largest index).
   */
  function DownMoveAsWritten(index: nat, size: nat): (m: HistoryMove)
    requires index < SIZE_T_MODULUS && size < SIZE_T_MODULUS
    ensures m.Show? ==> m.at == index + 1
    ensures m.Show? <==> index + 1 < size || (size == 0 && index + 1 < SIZE_T_MODULUS)
    ensures m == ClearInput <==> index + 1 == size || (size == 0 && index + 1 == SIZE_T_MODULUS)
  {
    var last := SizeTSub(size, 1);
    if index < last then Show(index + 1)
    else if index == last then ClearInput
    else Stay
  }

  /** On a non-empty history the guard as written is the intended one. */
  lemma DownAsWrittenAgreesOnNonEmptyHistory(index: nat, size: nat)
    requires 0 < size < SIZE_T_MODULUS && index <= size
    ensures DownMoveAsWritten(index, size) == DownMove(index, size)
  {
  }

  /**
   * On an empty history `size() - 1` wraps to 2^64 - 1, the guard holds and
   * the code reads entry `index + 1` of a vector with no entries.
   */
  lemma DownAsWrittenReadsPastEmptyHistory(index: nat)
    requires index < SIZE_T_MODULUS - 1
    ensures DownMoveAsWritten(index, 0) == Show(index + 1)
    ensures DownMove(0, 0) == Stay
  {
  }

  // ---------------------------------------------------------------------
  // Edits of the text control
  // ---------------------------------------------------------------------

  /** Replacing the target `[inputStart, end)` with `text`. */
  function ReplaceInput(buffer: string, inputStart: nat, text: string): (r: string)
    requires inputStart <= |buffer|
    ensures |r| == inputStart + |text|
    ensures r[..inputStart] == buffer[..inputStart]
    ensures r[inputStart..] == text
  {
    buffer[..inputStart] + text
  }

  /** Where the caret is after the target `[inputStart, end)` is replaced. */
  function CaretAfterReplace(caret: nat, inputStart: nat): (r: nat)
    ensures r <= inputStart && r <= caret
    ensures caret <= inputStart ==> r == caret
    ensures caret > inputStart ==> r == inputStart
  {
    if caret <= inputStart then caret else inputStart
  }

  /** The control's own Backspace: the character before `pos` is removed. */
  function DeleteBefore(buffer: string, pos: nat): (r: string)
    requires 0 < pos <= |buffer|
    ensures |r| == |buffer| - 1
    ensures r[..pos - 1] == buffer[..pos - 1]
    ensures r[pos - 1..] == buffer[pos..]
  {
    buffer[..pos - 1] + buffer[pos..]
  }

  /** The control's insertion of a typed character at `pos`. */
  function InsertAt(buffer: string, pos: nat, c: char): (r: string)
    requires pos <= |buffer|
    ensures |r| == |buffer| + 1
    ensures r[..pos] == buffer[..pos]
    ensures r[pos] == c
    ensures r[pos + 1..] == buffer[pos..]
  {
    buffer[..pos] + [c] + buffer[pos..]
  }

  /** A Backspace the handler lets through never reaches the prompt. */
  lemma BackspaceKeepsPrompt(buffer: string, caret: nat, inputStart: nat)
    requires inputStart < caret <= |buffer|
    ensures DeleteBefore(buffer, caret)[..inputStart] == buffer[..inputStart]
  {
    var r := DeleteBefore(buffer, caret);
    assert r[..inputStart] == r[..caret - 1][..inputStart];
  }

  /** A character inserted at or after `inputStart` leaves the prompt alone. */
  lemma TypingKeepsPrompt(buffer: string, pos: nat, inputStart: nat, c: char)
    requires inputStart <= pos <= |buffer|
    ensures InsertAt(buffer, pos, c)[..inputStart] == buffer[..inputStart]
  {
    var r := InsertAt(buffer, pos, c);
    assert r[..inputStart] == r[..pos][..inputStart];
  }

  /** A history entry shown in the input line leaves the prompt alone. */
  lemma ReplaceKeepsPrompt(buffer: string, inputStart: nat, text: string)
    requires inputStart <= |buffer|
    ensures ReplaceInput(buffer, inputStart, text)[..inputStart] == buffer[..inputStart]
    ensures ReplaceInput(buffer, inputStart, text)[inputStart..] == text
  {
  }

  // ---------------------------------------------------------------------
  // The terminal panel
  // ---------------------------------------------------------------------

  class TerminalWx {
    var buffer: string            // contents of the styled text control
    var caret: nat                // the control's current position
    var pid: int                  // m_pid
    var isBusy: bool              // m_isBusy
    var currentDirectory: string  // m_currentDirectory
    var vimModeEnabled: bool      // m_vimModeEnabled
    var inputStart: nat           // m_inputStart: where the user's input begins
    var transparency: int         // m_transparency
    var commandHistory: seq<string>
    var historyIndex: nat         // m_historyIndex, a size_t
    var vimMode: VimMode

    ghost predicate Valid()
      reads this
    {
      && inputStart <= |buffer|
      && caret <= |buffer|
      && historyIndex <= |commandHistory|
    }

    /** The panel in `cwd`, showing the prompt `cwd + ">"`. */
    constructor (cwd: string)
      ensures Valid()
      ensures currentDirectory == cwd
      ensures buffer == cwd + ">" && inputStart == |buffer| && caret == 0
      ensures pid == 0 && !isBusy
      ensures !vimModeEnabled && vimMode == Insert
      ensures transparency == 255
      ensures commandHistory == [] && historyIndex == 0
    {
      pid, isBusy, currentDirectory := 0, false, cwd;
      vimModeEnabled, vimMode := false, Insert;
      transparency := 255;
      commandHistory, historyIndex := [], 0;
      buffer, caret := "", 0;
      new;
      buffer := buffer + currentDirectory + ">";
      inputStart := |buffer|;
    }

    function IsBusy(): (r: bool)
      reads this
      ensures r == isBusy
    {
      isBusy
    }

    function GetCurrentDirectory(): (r: string)
      reads this
      ensures r == currentDirectory
    {
      currentDirectory
    }

    /** Everything but the history cursor and the text control is as before. */
    twostate predicate SessionUnchanged()
      reads this
    {
      && pid == old(pid) && isBusy == old(isBusy)
      && currentDirectory == old(currentDirectory)
      && vimModeEnabled == old(vimModeEnabled) && vimMode == old(vimMode)
      && inputStart == old(inputStart) && transparency == old(transparency)
      && commandHistory == old(commandHistory)
    }

    /** The input line `[inputStart, end)` now shows `text`. */
    twostate predicate InputReplacedBy(text: string)
      reads this
    {
      && old(inputStart) <= |old(buffer)|
      && buffer == ReplaceInput(old(buffer), old(inputStart), text)
      && caret == CaretAfterReplace(old(caret), old(inputStart))
    }

    /** The effect of an arrow key that makes the history move `m`. */
    twostate predicate HistoryMoved(m: HistoryMove)
      reads this
    {
      && SessionUnchanged()
      && match m
         case Stay =>
           historyIndex == old(historyIndex) && buffer == old(buffer) && caret == old(caret)
         case Show(at) =>
           at < |commandHistory| && historyIndex == at && InputReplacedBy(commandHistory[at])
         case ClearInput =>
           historyIndex == |commandHistory| && InputReplacedBy("")
    }

    /** `cls`/`clear`: the control shows only a fresh prompt. */
    twostate predicate ScreenCleared(ok: bool, new launched: Option<string>)
      reads this
    {
      && ok && launched == None
      && currentDirectory == old(currentDirectory)
      && buffer == currentDirectory + ">" && inputStart == |buffer| && caret == 0
      && !isBusy && pid == old(pid)
      && commandHistory == old(commandHistory) && historyIndex == old(historyIndex)
    }

    /**
     * `cd path` after the echo `echoed`: when the directory exists it
     * becomes the current one, normalised, and the new prompt is shown;
     * otherwise an error and the old prompt are shown.
     */
    twostate predicate DirectoryChanged(path: string, directories: set<string>, echoed: string,
                                        ok: bool, new launched: Option<string>)
      reads this
    {
      && launched == None && ok == (path in directories)
      && !isBusy && pid == old(pid)
      && commandHistory == old(commandHistory) && historyIndex == old(historyIndex)
      && caret == old(caret)
      && (path in directories ==>
            && path != []
            && currentDirectory == NormalizeDirectory(path)
            && buffer == echoed + "\r\n" + currentDirectory + ">")
      && (path !in directories ==>
            && currentDirectory == old(currentDirectory)
            && buffer == echoed + "\r\nDirectory not found: " + path + "\r\n" + currentDirectory + ">")
      && inputStart == |buffer|
    }

    /**
     * An external command after the echo `echoed`: the launch line is
     * handed to `wxExecute`; on success the command joins the history and
     * the terminal stays busy, on failure an error and the prompt are shown.
     */
    twostate predicate CommandLaunched(command: string, launchPid: int, echoed: string,
                                       ok: bool, new launched: Option<string>)
      reads this
    {
      && launched == Some(LaunchLine(old(currentDirectory), command))
      && pid == launchPid && ok == (launchPid > 0)
      && currentDirectory == old(currentDirectory) && caret == old(caret)
      && (launchPid > 0 ==>
            && isBusy
            && commandHistory == old(commandHistory) + [command]
            && historyIndex == |commandHistory|
            && buffer == echoed && inputStart == old(inputStart))
      && (launchPid <= 0 ==>
            && !isBusy
            && commandHistory == old(commandHistory) && historyIndex == old(historyIndex)
            && buffer == echoed + "\r\nFailed to execute command: " + command + "\r\n" + currentDirectory + ">"
            && inputStart == |buffer|)
    }

    /**
     * The effect of `ExecuteCommand(command)` on an idle terminal, given
     * the directories that exist and the process id `wxExecute` returns;
     * `ok` is the result and `launched` the line handed to `wxExecute`.
     * The command is first echoed by a line break.
     */
    twostate predicate Executed(command: string, directories: set<string>, launchPid: int,
                                ok: bool, new launched: Option<string>)
      reads this
    {
      && vimModeEnabled == old(vimModeEnabled) && vimMode == old(vimMode)
      && transparency == old(transparency)
      && match Classify(command)
         case ClearScreen => ScreenCleared(ok, launched)
         case ChangeDirectory(path) =>
           DirectoryChanged(path, directories, old(buffer) + "\r\n", ok, launched)
         case External =>
           CommandLaunched(command, launchPid, old(buffer) + "\r\n", ok, launched)
    }

    /**
     * Runs one command line. A busy terminal refuses it and changes
     * nothing; otherwise the command is dispatched as `Classify` says.
     * `directories` stands for `wxDir::Exists` and `launchPid` for the
     * result of `wxExecute`.
     */
    method ExecuteCommand(command: string, directories: set<string>, launchPid: int)
      returns (ok: bool, launched: Option<string>)
      requires Valid()
      requires "" !in directories
      modifies this
      ensures Valid()
      ensures old(isBusy) ==> !ok && launched == None && unchanged(this)
      ensures !old(isBusy) ==> Executed(command, directories, launchPid, ok, launched)
    {
      if isBusy {
        return false, None;
      }
      buffer := buffer + "\r\n";
      match Classify(command)
      case ClearScreen =>
        ClearAndPrompt();
        return true, None;
      case ChangeDirectory(path) =>
        ok := ChangeDirectoryTo(path, directories);
        return ok, None;
      case External =>
        ok, launched := Launch(command, launchPid);
    }

    /** `cls`/`clear`: the control is emptied and shows a fresh prompt. */
    method ClearAndPrompt()
      requires Valid()
      modifies this`buffer, this`caret, this`inputStart
      ensures Valid()
      ensures buffer == currentDirectory + ">" && inputStart == |buffer| && caret == 0
    {
      buffer, caret := "", 0;
      buffer := buffer + currentDirectory + ">";
      inputStart := |buffer|;
    }

    /** `cd path`; `directories` stands for `wxDir::Exists`. */
    method ChangeDirectoryTo(path: string, directories: set<string>) returns (ok: bool)
      requires Valid()
      requires "" !in directories
      modifies this`buffer, this`inputStart, this`currentDirectory
      ensures Valid()
      ensures ok == (path in directories)
      ensures ok ==>
        && path != []
        && currentDirectory == NormalizeDirectory(path)
        && buffer == old(buffer) + "\r\n" + currentDirectory + ">"
      ensures !ok ==>
        && currentDirectory == old(currentDirectory)
        && buffer == old(buffer) + "\r\nDirectory not found: " + path + "\r\n" + currentDirectory + ">"
      ensures inputStart == |buffer|
    {
      if path in directories {
        currentDirectory := NormalizeDirectory(path);
        buffer := buffer + "\r\n" + currentDirectory + ">";
        inputStart := |buffer|;
        return true;
      } else {
        buffer := buffer + "\r\nDirectory not found: " + path;
        buffer := buffer + "\r\n" + currentDirectory + ">";
        inputStart := |buffer|;
        return false;
      }
    }

    /**
     * An external command: the terminal turns busy and the launch line is
     * handed to `wxExecute`, whose result is `launchPid`.
     */
    method Launch(command: string, launchPid: int) returns (ok: bool, launched: Option<string>)
      requires Valid()
      modifies this`buffer, this`inputStart, this`isBusy, this`pid
      modifies this`commandHistory, this`historyIndex
      ensures Valid()
      ensures launched == Some(LaunchLine(currentDirectory, command))
      ensures pid == launchPid && ok == (launchPid > 0)
      ensures ok ==>
        && isBusy
        && commandHistory == old(commandHistory) + [command]
        && historyIndex == |commandHistory|
        && buffer == old(buffer) && inputStart == old(inputStart)
      ensures !ok ==>
        && !isBusy
        && commandHistory == old(commandHistory) && historyIndex == old(historyIndex)
        && buffer == old(buffer) + "\r\nFailed to execute command: " + command + "\r\n" + currentDirectory + ">"
        && inputStart == |buffer|
    {
      isBusy := true;
      launched := Some(LaunchLine(currentDirectory, command));
      pid := launchPid;
      if pid <= 0 {
        buffer := buffer + "\r\nFailed to execute command: " + command;
        buffer := buffer + "\r\n" + currentDirectory + ">";
        inputStart := |buffer|;
        isBusy := false;
        return false, launched;
      }
      commandHistory := commandHistory + [command];
      historyIndex := |commandHistory|;
      return true, launched;
    }

    /** Shows `text` in the input line, leaving the prompt as it is. */
    method ReplaceInputLine(text: string)
      requires Valid()
      modifies this`buffer, this`caret
      ensures Valid()
      ensures InputReplacedBy(text)
    {
      buffer := ReplaceInput(buffer, inputStart, text);
      caret := CaretAfterReplace(caret, inputStart);
    }

    /**
     * The key-down handler. `skipped` says whether the key is passed on to
     * the text control (`event.Skip()`). While busy, Escape kills the
     * process and other keys go to its input (process I/O, outside the
     * model); in vim mode every key is passed on.
     */
    method OnKeyDown(key: Key, directories: set<string>, launchPid: int) returns (skipped: bool)
      requires Valid()
      requires "" !in directories
      modifies this
      ensures Valid()
      ensures old(isBusy) ==> !skipped && unchanged(this)
      ensures !old(isBusy) && old(vimModeEnabled) ==> skipped && unchanged(this)
      ensures !old(isBusy) && !old(vimModeEnabled) ==>
        match key
        case Return =>
          !skipped &&
          exists ok: bool, launched: Option<string> ::
            Executed(old(buffer[inputStart..]), directories, launchPid, ok, launched)
        case Up => !skipped && HistoryMoved(UpMove(old(historyIndex), old(|commandHistory|)))
        case Down => !skipped && HistoryMoved(DownMove(old(historyIndex), old(|commandHistory|)))
        case Home =>
          !skipped && SessionUnchanged() && historyIndex == old(historyIndex)
          && buffer == old(buffer) && caret == inputStart
        case Back =>
          if old(caret) <= old(inputStart) then !skipped && unchanged(this)
          else
            skipped && SessionUnchanged() && historyIndex == old(historyIndex)
            && buffer == DeleteBefore(old(buffer), old(caret)) && caret == old(caret) - 1
        case _ => skipped && unchanged(this)
    {
      if isBusy {
        return false;
      }
      if vimModeEnabled {
        return true;
      }
      match key
      case Return =>
        var command := buffer[inputStart..];
        var ok, launched := ExecuteCommand(command, directories, launchPid);
        return false;
      case Up =>
        HistoryUp();
        return false;
      case Down =>
        HistoryDown();
        return false;
      case Home =>
        caret := inputStart;
        return false;
      case Back =>
        if caret <= inputStart {
          return false;
        }
        // passed on: the control deletes the character before the caret
        buffer := DeleteBefore(buffer, caret);
        caret := caret - 1;
        return true;
      case _ =>
        return true;
    }

    /** Up: the previous history entry replaces the input line. */
    method HistoryUp()
      requires Valid()
      modifies this`historyIndex, this`buffer, this`caret
      ensures Valid()
      ensures HistoryMoved(UpMove(old(historyIndex), |commandHistory|))
    {
      if historyIndex > 0 {
        historyIndex := historyIndex - 1;
        ReplaceInputLine(commandHistory[historyIndex]);
      }
    }

    /**
     * Down: the next history entry replaces the input line, or, past the
     * last entry, the input line is cleared. The guard is the corrected
     * `index + 1 < size`; see `DownMoveAsWritten` for the code as written.
     */
    method HistoryDown()
      requires Valid()
      modifies this`historyIndex, this`buffer, this`caret
      ensures Valid()
      ensures HistoryMoved(DownMove(old(historyIndex), |commandHistory|))
    {
      if historyIndex + 1 < |commandHistory| {
        historyIndex := historyIndex + 1;
        ReplaceInputLine(commandHistory[historyIndex]);
      } else if historyIndex + 1 == |commandHistory| {
        historyIndex := |commandHistory|;
        ReplaceInputLine("");
      }
    }

    /**
     * A typed character: a caret left of the prompt is first moved to the
     * end, then the control inserts the character at the caret.
     */
    method OnChar(c: char)
      requires Valid()
      modifies this`buffer, this`caret
      ensures Valid()
      ensures old(caret) < inputStart ==> buffer == old(buffer) + [c] && caret == |buffer|
      ensures old(caret) >= inputStart ==>
        buffer == InsertAt(old(buffer), old(caret), c) && caret == old(caret) + 1
      ensures buffer[..inputStart] == old(buffer)[..inputStart]
    {
      if caret < inputStart {
        caret := |buffer|;
      }
      TypingKeepsPrompt(buffer, caret, inputStart, c);
      buffer := InsertAt(buffer, caret, c);
      caret := caret + 1;
    }

    /** Enabling vim mode starts in Normal mode, disabling it returns to Insert. */
    method EnableVimMode(enable: bool)
      modifies this`vimModeEnabled, this`vimMode
      ensures vimModeEnabled == enable
      ensures vimMode == if enable then Normal else Insert
    {
      vimModeEnabled := enable;
      if enable {
        vimMode := Normal;
      } else {
        vimMode := Insert;
      }
    }

    method SetVimMode(mode: VimMode)
      modifies this`vimMode
      ensures vimMode == mode
    {
      vimMode := mode;
    }
  }

  /** A session: a `cd`, a launched command, then the busy gate. */
  method TerminalScenario()
  {
    var t := new TerminalWx("C:");
    var dirs := {"D:"};
    assert Lower("CD ") == "cd ";
    assert TrimRight("D:") == "D:";
    CdInAnyCase("CD ", "D:");
    var ok, launched := t.ExecuteCommand("CD " + "D:", dirs, 7);
    assert ok && t.GetCurrentDirectory() == "D:\\";
    assert Lower("dir") == "dir";
    ok, launched := t.ExecuteCommand("dir", dirs, 7);
    assert ok && t.IsBusy() && t.commandHistory == ["dir"] && t.historyIndex == 1;
    assert launched == Some(LaunchLine("D:\\", "dir"));
    ok, launched := t.ExecuteCommand("cls", dirs, 7);
    assert !ok && t.commandHistory == ["dir"];
  }
}
