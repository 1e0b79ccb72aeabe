# IntelliBatch terminal session and configuration store, modelled in Dafny

This project models two pieces of the IntelliBatch desktop shell:

- **The `TerminalWx` session state machine.** This is the terminal panel's logic without its GUI. It covers:
  - command dispatch in `ExecuteCommand`: the busy gate, the case-insensitive `cls`/`clear` builtin, the `cd` builtin with its separator normalisation, and the external launch that records the command in the history;
  - history navigation with the Up and Down keys;
  - prompt protection: the text before `inputStart` is never changed by Backspace, by a history entry shown in the input line, or by a typed character;
  - the vim-mode flag.
- **`ConfigManager` as an in-memory store.** Sections map keys to string values. There are typed getters and setters for strings, integers and booleans, plus entry and section deletion and enumeration.

Files:

| file | module | contents |
|---|---|---|
| `wrappers.dfy` | `Wrappers` | `Option` |
| `text.dfy` | `Text` | ASCII `Lower`, `StartsWith`, `TrimRight`, which stand for `wxString::Lower`, `StartsWith` and `Trim` |
| `terminal.dfy` | `Terminal` | command classification, directory normalisation, the launch line, history moves, text-control edits, the class `TerminalWx` and a client scenario |
| `config.dfy` | `Config` | the store functions `Put`/`Erase`/`EraseSection`, the decimal and `"1"`/`"0"` codecs, the class `ConfigManager` and the unit-test scenario |

How the environment is modelled:

- The text control is modelled by its contents `buffer` and its caret `caret`.
- `AppendText` appends without moving the caret.
- `ClearAll` empties the control and puts the caret at 0.
- `ReplaceTarget` over `[inputStart, end)` moves a caret inside that range to `inputStart`. This is Scintilla's rule.
- `wxDir::Exists` is a parameter `directories: set<string>`. The empty string is never in it, because no directory has the empty name, so `wxDir::Exists("")` is false. `cd ` followed only by white space therefore takes the error branch.
- `wxExecute` is a parameter `launchPid`. `ExecuteCommand` also returns the command line it hands to `wxExecute`.
- `wxGetCwd` is the constructor's parameter `cwd`.
- When `OnKeyDown` passes a key on (`event.Skip()`), the control's own action is modelled for two cases only: Backspace in normal mode deletes the character before the caret, and `OnChar` inserts the typed character at the caret.

Encoding choices for the configuration store (the source does not show them):

- Integers are stored as decimal text with a leading `-` for negatives. `GetInt` returns the default when the text does not parse or is outside the 32-bit `int` range.
- Booleans are stored as `"1"` and `"0"`. `GetBool` returns the default for any other text.
- `DeleteEntry` removes a section once its last key is gone, as wxConfig's `DeleteEntry` does by default. So a stored section always holds at least one key.
- `DeleteEntry` and `DeleteSection` return whether the entry or section existed.
- A new `ConfigManager` holds no entries.
- The getters keep the C++ default arguments: `GetString`, `GetInt` and `GetBool` default to `""`, `0` and `false` when no default is passed, as the unit tests rely on.

## Model

| member | source | states |
|---|---|---|
| `Text.Lower` | src/terminal/terminalwx.cpp:74 | the lower-cased command has the same length and every character folded (ASCII case folding) |
| `Text.LowerAppend` | src/terminal/terminalwx.cpp:81 | folding distributes over concatenation, so folding `"CD " + p` is `"cd " + Lower(p)` |
| `Text.TrimRight` | src/terminal/terminalwx.cpp:82 | `Trim()` yields the longest prefix not ending in white space; everything removed is white space |
| `Terminal.Classify` | src/terminal/terminalwx.cpp:74-82 | exactly `cls`/`clear` in any case clears the screen; otherwise a lower-cased `cd ` prefix selects a directory change to the rest of the line, right-trimmed; otherwise the command is launched |
| `Terminal.CdInAnyCase` | src/terminal/terminalwx.cpp:81-82 | `cd` in any letter case followed by any text is a directory change to that text, trimmed |
| `Terminal.NormalizeDirectory` | src/terminal/terminalwx.cpp:84-86 | the stored directory always ends in `\` or `/`; it is the path unchanged exactly when the path already ends in a separator, and otherwise the path with exactly `\` appended |
| `Terminal.NormalizeIdempotent` | src/terminal/terminalwx.cpp:84-86 | normalising a stored directory again changes nothing |
| `Terminal.LaunchLine` | src/terminal/terminalwx.cpp:107 | the launched line is `cmd.exe /c cd `, the directory verbatim, ` && `, the command verbatim, with no quoting |
| `Terminal.UpMove` | src/terminal/terminalwx.cpp:203-211 | Up never clears the input; it is a no-op exactly at index 0, and otherwise it shows entry `index - 1`, which is in bounds |
| `Terminal.DownMove` | src/terminal/terminalwx.cpp:213-226 | Down with the intended guard: every shown entry is in bounds; it clears the input exactly at the last entry; it stays exactly at the end; the index never exceeds the history size and goes up by one when below it |
| `Terminal.DownUndoesUp` | src/terminal/terminalwx.cpp:203-226 | Down after Up returns the history cursor to where it was |
| `Terminal.UpUndoesDown` | src/terminal/terminalwx.cpp:203-226 | Up after Down returns the history cursor to where it was |
| `Terminal.DownMoveAsWritten` | src/terminal/terminalwx.cpp:213-226 | Down as written: it shows entry `index + 1` exactly when that entry exists or the history is empty, and clears the input exactly at the last entry (or, on an empty history, at index 2^64 - 1) |
| `Terminal.SizeTSub` | src/terminal/terminalwx.cpp:215 | `size_t` subtraction is exact when no borrow occurs and wraps modulo 2^64 otherwise |
| `Terminal.DownAsWrittenAgreesOnNonEmptyHistory` | src/terminal/terminalwx.cpp:215-221 | on a non-empty history the guard as written behaves like the intended one |
| `Terminal.DownAsWrittenReadsPastEmptyHistory` | src/terminal/terminalwx.cpp:215-217 | on an empty history the guard as written holds, and entry `index + 1` of an empty vector is read; the intended move is a no-op |
| `Terminal.ReplaceInput` | src/terminal/terminalwx.cpp:208-210 | replacing the target keeps `buffer[..inputStart]` and leaves exactly the new text after it |
| `Terminal.CaretAfterReplace` | src/terminal/terminalwx.cpp:208-210 | after the replacement a caret at or before `inputStart` stays put, and a caret inside the replaced range moves to `inputStart` |
| `Terminal.DeleteBefore` | src/terminal/terminalwx.cpp:232-237 | the control's Backspace removes exactly the character before the caret |
| `Terminal.InsertAt` | src/terminal/terminalwx.cpp:246-252 | a typed character is inserted at the caret, and the text before and after it is kept |
| `Terminal.BackspaceKeepsPrompt` | src/terminal/terminalwx.cpp:232-237 | a Backspace that the handler lets through (caret past `inputStart`) leaves the prompt intact |
| `Terminal.TypingKeepsPrompt` | src/terminal/terminalwx.cpp:246-252 | a character inserted at or after `inputStart` leaves the prompt intact |
| `Terminal.ReplaceKeepsPrompt` | src/terminal/terminalwx.cpp:208-210 | showing a history entry leaves the prompt intact, and the input line is exactly that entry |
| `Terminal.TerminalWx.constructor` | include/terminal/terminalwx.h:83-110 | a fresh terminal: pid 0, not busy, vim mode disabled, mode Insert, transparency 255, empty history, index 0, buffer `cwd + ">"` (src/terminal/terminalwx.cpp:49-50) and `inputStart` equal to its length |
| `Terminal.TerminalWx.IsBusy` | include/terminal/terminalwx.h:68 | a pure read of the busy flag |
| `Terminal.TerminalWx.GetCurrentDirectory` | include/terminal/terminalwx.h:74 | a pure read of the current directory |
| `Terminal.TerminalWx.ExecuteCommand` | src/terminal/terminalwx.cpp:66-128 | busy: returns false and nothing changes. Otherwise the line break is echoed, then: `cls`/`clear` returns true, the buffer is exactly `dir + ">"`, `inputStart` is its length and the history is untouched; `cd` to an existing path returns true and stores the normalised directory; `cd` to a missing path returns false, shows the error and keeps the directory and history; an external command launches `LaunchLine(dir, command)` and, with pid > 0, returns true, appends exactly the command to the history and sets the index to the new size, while with pid <= 0 it returns false, leaves the history unchanged, clears busy and shows the error |
| `Terminal.TerminalWx.ClearAndPrompt` | src/terminal/terminalwx.cpp:74-78 | the buffer becomes exactly `dir + ">"`, the caret goes to 0 and `inputStart` is the buffer length |
| `Terminal.TerminalWx.ChangeDirectoryTo` | src/terminal/terminalwx.cpp:83-96 | succeeds exactly when the path exists; then the directory becomes the normalised path and a new prompt is shown; otherwise the directory is kept and the error and old prompt are shown; `inputStart` ends at the buffer end |
| `Terminal.TerminalWx.Launch` | src/terminal/terminalwx.cpp:100-127 | hands `LaunchLine(dir, command)` to the launcher; with pid > 0 the terminal stays busy and the command is appended to the history with the index at its end; otherwise busy is cleared, the history is unchanged and the error and prompt are shown |
| `Terminal.TerminalWx.HistoryUp` | src/terminal/terminalwx.cpp:203-211 | performs `UpMove` on the history cursor and replaces only the input region |
| `Terminal.TerminalWx.HistoryDown` | src/terminal/terminalwx.cpp:213-226 | performs the corrected `DownMove` and replaces only the input region, keeping the index at most the history size |
| `Terminal.TerminalWx.ReplaceInputLine` | src/terminal/terminalwx.cpp:208-210 | the input region alone is replaced, and the caret follows the replacement rule |
| `Terminal.TerminalWx.OnKeyDown` | src/terminal/terminalwx.cpp:162-244 | while busy nothing changes and the key is not passed on; in vim mode every key is passed on unchanged; so the history keys never run in either case. Return executes `buffer[inputStart..]`; Up and Down perform `UpMove`/`DownMove` on the input region only; Home puts the caret at `inputStart`; Backspace with caret <= `inputStart` is swallowed, otherwise it deletes before the caret; other keys are passed on |
| `Terminal.TerminalWx.OnChar` | src/terminal/terminalwx.cpp:246-253 | a caret left of `inputStart` moves to the end before the character is inserted; the text before `inputStart` never changes |
| `Terminal.TerminalWx.EnableVimMode` | src/terminal/terminalwx.cpp:153-160 | sets the flag; enabling selects Normal mode and disabling selects Insert mode |
| `Terminal.TerminalWx.SetVimMode` | src/terminal/terminalwx.cpp:312-330 | the mode becomes the given one |
| `Config.Put` | include/config/configmanager.h:54-60 | after storing, the entry reads back as the value; every other section/key reads as before; the section exists |
| `Config.Erase` | include/config/configmanager.h:137-143 | after erasing, the entry is absent; every other entry is unchanged |
| `Config.EraseSection` | include/config/configmanager.h:145-150 | after erasing, the section is gone with all its keys; other sections are unchanged |
| `Config.NatToText` | include/config/configmanager.h:71-77 | the decimal text of a number is non-empty digits with no leading zero |
| `Config.NatTextRoundTrip` | include/config/configmanager.h:62-77 | reading back the digits of `n` gives `n` |
| `Config.IntTextRoundTrip` | tests/unit/config_test.cpp:43-46 | parsing the text stored for any integer gives it back |
| `Config.TextToInt` | include/config/configmanager.h:62-69 | exactly non-empty decimal digits, optionally after a `-`, parse as an integer, and only text starting with `-` parses as a negative one |
| `Config.TextToBool` | include/config/configmanager.h:79-86 | exactly `"1"` and `"0"` parse as booleans |
| `Config.BoolTextRoundTrip` | tests/unit/config_test.cpp:57-60 | parsing the text stored for a boolean gives it back |
| `Config.Enumerate` | include/config/configmanager.h:152-163 | lists every element of the set exactly once |
| `Config.ConfigManager.constructor` | include/config/configmanager.h:21-24 | a new manager holds no entries |
| `Config.ConfigManager.HasEntry` | include/config/configmanager.h:129-135 | true exactly when the section holds the key |
| `Config.ConfigManager.GetString` | include/config/configmanager.h:45-52 | the stored text when present, the supplied default when absent, which is the empty string when omitted (tests/unit/config_test.cpp:35) |
| `Config.ConfigManager.SetString` | include/config/configmanager.h:54-60 | the entry then exists, and `GetString` returns the value for every default (tests/unit/config_test.cpp:29-32) |
| `Config.ConfigManager.GetInt` | include/config/configmanager.h:62-69 | the default when the key is absent; when the stored text is a decimal number in the range of `int`, that number; any other result is the default |
| `Config.ConfigManager.SetInt` | include/config/configmanager.h:71-77 | the entry then exists, and `GetInt` returns the value for every default (tests/unit/config_test.cpp:43-46) |
| `Config.ConfigManager.GetBool` | include/config/configmanager.h:79-86 | the default when the key is absent; when the stored text is `"1"` or `"0"`, the boolean it encodes; any other result is the default |
| `Config.ConfigManager.SetBool` | include/config/configmanager.h:88-94 | the entry then exists, and `GetBool` returns the value for every default (tests/unit/config_test.cpp:57-60) |
| `Config.ConfigManager.DeleteEntry` | include/config/configmanager.h:137-143 | returns whether the entry existed; afterwards it is absent and every other entry is unchanged |
| `Config.ConfigManager.DeleteSection` | include/config/configmanager.h:145-150 | returns whether the section existed; afterwards no key of it exists and it is no longer among the sections |
| `Config.ConfigManager.GetSections` | include/config/configmanager.h:152-156 | exactly the stored sections, each once |
| `Config.ConfigManager.GetKeys` | include/config/configmanager.h:158-163 | exactly the keys stored in the section, each once; none for an absent section |

## Findings

| source | as written | input that shows it | evidently intended | confidence | as-written member | corrected member |
|---|---|---|---|---|---|---|
| src/terminal/terminalwx.cpp:215 | `m_historyIndex < m_commandHistory.size() - 1` is computed in `size_t`, so with an empty history the right side wraps to 2^64 - 1 | press Down before any command has been launched (history empty, index 0): the guard holds, the index becomes 1 and `m_commandHistory[1]` is read from an empty vector | `m_historyIndex + 1 < m_commandHistory.size()`, making Down a no-op on an empty history | high, not executed | `Terminal.DownAsWrittenReadsPastEmptyHistory` | `Terminal.DownMove` |

`TerminalWx.OnKeyDown` uses the corrected guard, so its invariant `historyIndex <= |commandHistory|` holds on every input.

## Left out

- Rendering, fonts, colours, sizing and focus (`SetTerminalFont`, `SetColorScheme`, `SetTransparency`, `OnSize`, the constructor's control setup) are GUI toolkit calls. Only the initial transparency value is kept.
- Process I/O is operating-system plumbing: `wxExecute`, `m_process`, `Redirect`, `ReadProcessOutput` with its polling and unbounded recursion, `WriteProcessInput`, and `wxProcess::Kill` on Escape or in the destructor. The launch result is the input `launchPid`. After a successful launch the model's buffer holds the echoed line break only; no process output is appended.
- `TerminalWx.ExecuteCommand`: after a successful launch the source calls `ReadProcessOutput`, which keeps calling itself while `m_isBusy` holds (src/terminal/terminalwx.cpp:290-294). Nothing clears that flag, so in the source that call never returns and the `return true` at src/terminal/terminalwx.cpp:127 is never reached. The model leaves the polling out and returns `ok == (launchPid > 0)`, which is that line as written. It does not capture the hang.
- Nothing clears the busy flag after a successful launch. The code never does it, and `OnProcessTerminate` is declared but neither defined nor bound to an event, so the model adds no completion transition either.
- Vim key handling is a TODO in the source; only the mode flag and the pass-through of every key are modelled. The text control's own actions for passed-on keys are not modelled, apart from Backspace in normal mode and typed characters. In particular, Backspace in vim mode is passed on unguarded.
- Text selections are not modelled; Backspace and typing act at the caret only.
- `wxString::Lower` is modelled as ASCII case folding and `Trim()` as stripping trailing white space; their Unicode internals are left out. `wxDir::Exists` is the input set `directories`.
- `m_inputStart` is a C++ `int` and `GetLength()` returns one; the model uses unbounded naturals, so a buffer longer than 2^31 characters is not modelled.
- The model assumes the handlers receive the key events they are bound to. Event routing between the panel and its child control is toolkit behaviour and is left out.
- `ConfigManager::Load`, `Save`, `GetDefaultConfigPath`, `CreateDefaultConfig`, `GetConfigFilePath`, the `wxFileConfig` backing and `m_cache` are file I/O and a library not shown here. The Initialization unit test depends on them.
- `GetColor`/`SetColor` and `GetArrayString`/`SetArrayString` are left out because their text encodings are not shown.
- Keys and sections are compared exactly. Any case-insensitivity of wxFileConfig is not modelled.
- The order of `GetSections` and `GetKeys` is unspecified in the model; the file order of wxFileConfig is not modelled.
