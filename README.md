# OBS browser source: core model in Dafny

This project models the core of the OBS browser source plugin
(`obs-browser-source.cpp` and `windows-keycode.h`). A browser source embeds a
Chromium Embedded Framework (CEF) browser in an OBS scene. The engine runs on
its own thread, and the source reaches it only through tasks it queues there.

The model covers five parts:

- The X11 keysym → Windows virtual-key translation (`KeyboardCodeFromXKeysym`).
  It is a total function over keysyms and keeps every case of the source's
  switch. Range lemmas cover the digit, letter, keypad and F-key bands. A
  fallback lemma says exactly which keysyms give `VKEY_UNKNOWN`.
- The `VKEY_*` constant table, with lemmas on its bands, aliases and
  reserved slots.
- The settings reconciliation done by `BrowserSource::Update`:
  - the ten values read from the settings object;
  - the `%5C`/`%2F` replacement loops on local file paths;
  - the scheme prefix;
  - the case-insensitive `http://absolute/` upgrade;
  - the ten-field equality short-circuit.
- The key events `SendKeyClick` builds for one key press.
- The `BrowserSource` lifecycle as a class with the same fields:
  - `cefBrowser`, `create_browser`, `is_showing`, `first_update` and the
    stored settings;
  - the engine thread, an `Engine` object whose `calls` field logs every
    task handed to `QueueCEFTask` and every direct call into a browser.
    Its `accepting` field is what `QueueCEFTask` returns.
- The process-wide intrusive list of sources (`first_browser`, `next`,
  `p_prev_next`) as real pointer fields. The class invariant `Registry.Valid`
  ties them to a ghost sequence. The constructor links at the head, the
  destructor's unlink is proved against that sequence, and the broadcast
  walk `ExecuteOnAllBrowsers` is a `while` loop over `next`.

Files:

| file | module | contents |
|---|---|---|
| windows_keycode.dfy | WindowsKeycode | the `VKEY_*` table |
| x_keysym.dfy | XKeysym | the X11 keysym values the switch names |
| keysym_translation.dfy | KeysymTranslation | the translator and its lemmas |
| wrappers.dfy | Wrappers | `Option` |
| text.dfy | Text | `find`/`replace`, the replacement loop, `astrcmpi_n` |
| settings.dfy | Settings | Update's normalisation of the settings |
| key_events.dfy | KeyEvents | SendKeyClick's events |
| cef.dfy | Cef | values exchanged with the engine |
| browser_source.dfy | BrowserSources | engine log, `BrowserSource`, the registry |

The compile-time switches are modelled as parameters:

- `_WIN32` is `Platform.windows`.
- `ENABLE_LOCAL_FILE_URL_SCHEME` is `Platform.localFileScheme`.
- `__LINUX__` is the `linux` parameter of `KeyEventsFor`.

Foreign functions are modelled as inputs:

- `CefURIEncode` is the function parameter `encode`.
- `to_wide` is the function parameter `toWide`.
- `obs_source_showing` is the boolean parameter `sourceShowing`.

## Model

| member | source | states |
|---|---|---|
| KeysymTranslation.KeyboardCodeFromXKeysym | obs-browser-source.cpp:303-701 | every keysym maps to a one-byte virtual-key code (0..0xFE) |
| KeysymTranslation.LatinKeyCode | obs-browser-source.cpp:325-619 | the Latin-1 cases give a one-byte code |
| KeysymTranslation.FunctionBlockKeyCode | obs-browser-source.cpp:306-609 | the 0xFDxx-0xFFxx function-block cases give a one-byte code |
| KeysymTranslation.VendorKeyCode | obs-browser-source.cpp:626-699 | the XFree86 vendor cases give a one-byte code |
| KeysymTranslation.UpperLettersMapByOffset | obs-browser-source.cpp:366-443 | `XK_A+k` gives `VKEY_A+k` for k < 26 |
| KeysymTranslation.LowerLettersMapByOffset | obs-browser-source.cpp:366-443 | `XK_a+k` gives `VKEY_A+k` for k < 26 |
| KeysymTranslation.LetterCaseFolds | obs-browser-source.cpp:366-443 | `XK_A+k` and `XK_a+k` both give `VKEY_A+k` for k < 26 |
| KeysymTranslation.DigitsMapByOffset | obs-browser-source.cpp:445-455 | `XK_0+k` gives `VKEY_0+k`, inside the VKEY_0..VKEY_9 band |
| KeysymTranslation.KeypadDigitsMapByOffset | obs-browser-source.cpp:478-489 | `XK_KP_0+k` gives `VKEY_NUMPAD0+k`, inside the numpad band and never equal to a main-block digit code |
| KeysymTranslation.FunctionKeysMapByOffset | obs-browser-source.cpp:580-604 | `XK_F1+k` gives `VKEY_F1+k`, inside VKEY_F1..VKEY_F24, for k < 24 |
| KeysymTranslation.KeypadFunctionKeysMapByOffset | obs-browser-source.cpp:605-609 | `XK_KP_F1+k` gives the same code as `XK_F1+k` for k < 4 |
| KeysymTranslation.ShiftedDigitsMapToDigit | obs-browser-source.cpp:457-476 | `)` `!` `@` `#` `$` `%` `^` `&` `*` `(` give the code of the digit on their key |
| KeysymTranslation.LatinFallback | obs-browser-source.cpp:325-700 | below 0x100 the result is VKEY_UNKNOWN exactly when no Latin-1 case names the keysym |
| KeysymTranslation.FunctionBlockFallback | obs-browser-source.cpp:306-700 | in 0x100..0xFFFF the result is VKEY_UNKNOWN exactly when no function-block case names the keysym |
| KeysymTranslation.VendorFallback | obs-browser-source.cpp:626-700 | above 0xFFFF the result is VKEY_UNKNOWN exactly for unnamed keysyms and the seven browser keys that are ignored on purpose |
| KeysymTranslation.UnknownExactlyWhenUnmapped | obs-browser-source.cpp:303-700 | the translator is total, and it falls back to VKEY_UNKNOWN exactly when no case names the keysym or the keysym is an ignored browser key |
| WindowsKeycode.DefinedCodesAreNonzeroBytes | windows-keycode.h:3-328 | every code the header defines besides VKEY_UNKNOWN lies in 1..0xFE |
| WindowsKeycode.PosixAndBorrowedCodesInRange | windows-keycode.h:5-20 | the POSIX-only codes and AltGr/Compose are nonzero bytes |
| WindowsKeycode.ControlCodesInRange | windows-keycode.h:24-147 | the control and navigation codes are nonzero bytes |
| WindowsKeycode.AlphanumericCodesInRange | windows-keycode.h:150-193 | the digit, letter and Windows-key codes are nonzero bytes |
| WindowsKeycode.KeypadAndFunctionCodesInRange | windows-keycode.h:196-236 | the keypad and F-key codes are nonzero bytes |
| WindowsKeycode.ExtendedCodesInRange | windows-keycode.h:238-266 | the lock, left/right modifier, browser and media codes are nonzero bytes |
| WindowsKeycode.OemCodesInRange | windows-keycode.h:268-328 | the OEM and trailing codes are nonzero bytes |
| WindowsKeycode.DigitCodesConsecutive | windows-keycode.h:150-159 | VKEY_0..VKEY_9 are 0x30..0x39 in order |
| WindowsKeycode.LetterCodesConsecutive | windows-keycode.h:160-185 | VKEY_A..VKEY_Z are 0x41..0x5A in order |
| WindowsKeycode.NumpadCodesConsecutive | windows-keycode.h:196-205 | VKEY_NUMPAD0..VKEY_NUMPAD9 are 0x60..0x69, above the main-block digits |
| WindowsKeycode.FunctionKeyCodesConsecutive | windows-keycode.h:213-236 | VKEY_F1..VKEY_F24 are 0x70..0x87, above the numpad band |
| WindowsKeycode.ControlCodesAssigned | windows-keycode.h:24-147 | no control code sits in a slot Windows leaves unassigned |
| WindowsKeycode.AlphanumericCodesAssigned | windows-keycode.h:150-193 | no alphanumeric code sits in an unassigned slot |
| WindowsKeycode.KeypadAndFunctionCodesAssigned | windows-keycode.h:196-236 | no keypad or F-key code sits in an unassigned slot |
| WindowsKeycode.ExtendedCodesAssigned | windows-keycode.h:238-266 | no extended code sits in an unassigned slot |
| WindowsKeycode.OemCodesAssigned | windows-keycode.h:268-328 | no OEM code sits in an unassigned slot |
| WindowsKeycode.PosixCodesUseUnassignedSlots | windows-keycode.h:5-14 | the POSIX-only codes (WLAN, power, brightness) all sit in Windows-unassigned slots, and no other defined code does |
| WindowsKeycode.AliasedAndBorrowedCodes | windows-keycode.h:15-20 | KANA = HANGUL = 0x15 and HANJA = KANJI = 0x19; AltGr is 0xE1 and Compose is 0xE6 |
| Text.FindFrom | obs-browser-source.cpp:857-861 | `find` from a position returns the first occurrence at or after it, or npos exactly when there is none |
| Text.Find | obs-browser-source.cpp:857-861 | `find` returns npos exactly when the pattern does not occur, else its first occurrence |
| Text.ReplaceAt | obs-browser-source.cpp:858 | `replace(i, n, rep)` keeps the text before `i`, writes `rep`, then keeps the text after `i+n` |
| Text.ReplaceEvery | obs-browser-source.cpp:857-861 | after the replacement loop the pattern no longer occurs |
| Text.ReplaceAll | obs-browser-source.cpp:857-861 | the `while (find != npos) replace(find, …)` loop computes `ReplaceEvery` |
| Text.ReplaceAtPreservesAbsence | obs-browser-source.cpp:860-861 | writing a replacement that shares no character with `q` cannot create an occurrence of `q` |
| Text.ReplaceEveryPreservesAbsence | obs-browser-source.cpp:857-861 | a replacement loop whose replacement shares no character with `q` keeps `q` absent |
| Text.Upper | obs-browser-source.cpp:878 | `toupper` maps `a`..`z` to `A`..`Z` and leaves every other character alone |
| Text.EqualIgnoreCaseNIsPrefixTest | obs-browser-source.cpp:878 | `astrcmpi_n(s, p, |p|) == 0` holds exactly when `s` starts with `p` up to case, for a NUL-free `p` |
| Text.EqualIgnoreCaseN | obs-browser-source.cpp:878 | `astrcmpi_n(a, b, n) == 0`: equal strings always compare equal, and a first character that differs up to case makes them unequal |
| Settings.Int32 | obs-browser-source.cpp:840-842 | the `(int)` cast lands in the 32-bit range, agrees with the value modulo 2^32, and is the identity on in-range values |
| Settings.ReplaceDriveColonAsWritten | obs-browser-source.cpp:853-855 | the Windows step throws exactly when `%3A` is absent, and otherwise replaces the first occurrence |
| Settings.DriveColonThrowsOnEmptyPath | obs-browser-source.cpp:854 | an empty local-file path makes the Windows step throw |
| Settings.ReplaceDriveColon | obs-browser-source.cpp:853-855 | the corrected step is the identity without `%3A` and otherwise replaces the first occurrence with `:` |
| Settings.ReplaceDriveColonRefinesAsWritten | obs-browser-source.cpp:853-855 | the corrected step agrees with the code wherever the code does not throw, and shortens the string by two when there is a `%3A` |
| Settings.LocalPrefix | obs-browser-source.cpp:863-874 | a local path gets one of `http://absolute/`, `file:///` and `file://` |
| Settings.NormalizeLocalFile | obs-browser-source.cpp:850-875 | the local-file rewriting (drive colon, the two loops, prefix) computes `LocalFileUrl` |
| Settings.LocalPath | obs-browser-source.cpp:853-861 | after the drive-colon step and the two loops the path holds neither `%5C` nor `%2F`: the `%2F` loop cannot bring back a `%5C` |
| Settings.LocalFileUrl | obs-browser-source.cpp:850-874 | a local-file URL is its scheme prefix followed by the rewritten path |
| Settings.LegacyPrefixHasNoNul | obs-browser-source.cpp:878 | the 16-character legacy prefix holds no NUL |
| Settings.UpgradeLegacyUrl | obs-browser-source.cpp:877-884 | with file URLs enabled, a URL starting with `http://absolute/` in any case becomes `file:///` + the rest and is marked local; any other URL and flag are unchanged |
| Settings.Normalize | obs-browser-source.cpp:836-884 | the three integers are the 32-bit casts of the settings, the flags and `css` are copied, a local file is stored as the local-file URL of its encoded path and marked local, a legacy `http://absolute/` URL under the file scheme is stored as `file:///` plus the rest and marked local, and any other remote URL is kept as it is and not local |
| Settings.NoLegacyUrlSurvives | obs-browser-source.cpp:838-884 | with file URLs enabled, no normalised URL keeps the legacy prefix, a local file stays local, and a local URL starts with `file://` |
| Settings.LegacyMappingWithoutFileScheme | obs-browser-source.cpp:863-866 | without file URLs, a local file gets the `http://absolute/` URL and stays local |
| KeyEvents.Char16 | obs-browser-source.cpp:726-727 | the wide character stored into the 16-bit `character` field keeps its low 16 bits (it agrees with the wide character modulo 2^16), and is unchanged when it fits |
| KeyEvents.EventCharacter | obs-browser-source.cpp:724-728 | the event character is the first wide character of non-empty text, cut to 16 bits, and 0 when the text is empty or decodes to nothing |
| KeyEvents.KeyEventsFor | obs-browser-source.cpp:705-748 | one event (KEYUP or RAWKEYDOWN) for key-up or empty text, else RAWKEYDOWN then CHAR; every event's character is the first wide character of the text truncated to 16 bits (0 for empty text); every event carries the native modifiers and scancode; on Linux every key code is a one-byte code |
| KeyEvents.KeyCodesOfEvents | obs-browser-source.cpp:709-713 | the first event's code is the translated native key on Linux, else the native key; the CHAR event's code is the translated character on Linux, else the character |
| KeyEvents.TypedLetterGivesLetterKey | obs-browser-source.cpp:735-740 | on Linux a typed Latin letter of either case gives a CHAR event with that letter's VKEY code |
| BrowserSources.Engine.QueueCEFTask | obs-browser-source.cpp:113 | a task is appended to the log exactly when the engine accepts tasks, and the result says which |
| BrowserSources.Engine.CallDirect | obs-browser-source.cpp:66-70 | a call made straight into a browser from the caller's thread is appended to the log, and nothing else changes |
| BrowserSources.Submitted | obs-browser-source.cpp:113 | a submission adds nothing when refused and exactly the queued task otherwise |
| BrowserSources.AsyncCalls | obs-browser-source.cpp:122-131 | the asynchronous path adds nothing without a browser, otherwise one task bound to the handle held at the call |
| BrowserSources.VisibilityCalls | obs-browser-source.cpp:52-71 | SendBrowserVisibility does nothing without a browser, else one direct visibility call |
| BrowserSources.CreateFollowUpAsWritten | obs-browser-source.cpp:183-193 | as written, the creation task faults exactly when creation returned null and audio is rerouted; otherwise it makes the corrected calls |
| BrowserSources.CreateFollowUp | obs-browser-source.cpp:183-193 | every call goes to the created browser: none without one, else the mute (exactly when audio is rerouted) and then the visibility call last |
| BrowserSources.BrowserSource.constructor | obs-browser-source.cpp:76-88 | the new source is linked in at the head of the list and the list stays well linked; of the other sources only the old head's `p_prev_next` may change; the source starts without a browser |
| BrowserSources.UnlinkedListIsLinked | obs-browser-source.cpp:95-98 | bypassing one position of a well-linked list (its predecessor's `next` takes its `next`, its successor's `p_prev_next` takes its `p_prev_next`) leaves every remaining source well linked in the shortened list |
| BrowserSources.PrependKeepsDistinct | obs-browser-source.cpp:83-87 | putting a source not yet listed at the head keeps the list free of repeats |
| BrowserSources.RemoveAtKeepsDistinct | obs-browser-source.cpp:95-98 | removing one position keeps the list free of repeats |
| BrowserSources.BrowserSource.Unlink | obs-browser-source.cpp:95-98 | the unlink removes exactly this source from the list and keeps the list well linked; it writes only the successor's `p_prev_next` and the predecessor's `next` (or the list head) and leaves this source alone |
| BrowserSources.BrowserSource.ExecuteOnBrowser | obs-browser-source.cpp:101-132 | the synchronous path queues a task that reads the live handle; the asynchronous path queues nothing without a browser and otherwise binds the task to the handle held at the call |
| BrowserSources.BrowserSource.CreateBrowser | obs-browser-source.cpp:134-196 | the creation task is queued, and the result is whether the engine took it |
| BrowserSources.BrowserSource.RunCreateTask | obs-browser-source.cpp:136-195 | the queued creation task stores whatever CreateBrowserSync returned, builds the browser from the current settings (web security off for local files with file URLs), and makes the `CreateFollowUp` calls |
| BrowserSources.BrowserSource.DestroyBrowser | obs-browser-source.cpp:198-221 | the close request goes through ExecuteOnBrowser, and the handle is null afterwards whatever the engine did |
| BrowserSources.BrowserSource.ClearAudioStreams | obs-browser-source.cpp:223-230 | one audio-clearing task is queued |
| BrowserSources.BrowserSource.RestartBrowser | obs-browser-source.cpp:908-915 | the browser is dropped and audio cleared; `create_browser` is set when the source does not shut down while invisible or is showing, and is never reset; `first_update` becomes false |
| BrowserSources.BrowserSource.Update | obs-browser-source.cpp:824-915 | when all ten normalised values equal the stored ones, nothing changes and nothing is queued; otherwise (and always without settings) the values are stored and the browser restarts |
| BrowserSources.BrowserSource.Tick | obs-browser-source.cpp:917-925 | a pending creation queues one task, and `create_browser` is cleared exactly when the engine took it |
| BrowserSources.BrowserSource.SetShowing | obs-browser-source.cpp:750-782 | a source that shuts down while invisible restarts on show and drops its browser on hide; any other source sends the visibility message, the `obsSourceVisibleChanged` event and a direct visibility call, in that order |
| BrowserSources.BrowserSource.SetActive | obs-browser-source.cpp:784-798 | the `Active` message, then the `obsSourceActiveChanged` event for this source |
| BrowserSources.BrowserSource.Refresh | obs-browser-source.cpp:800-807 | one reload task when there is a browser |
| BrowserSources.BrowserSource.SendKeyClick | obs-browser-source.cpp:705-748 | one task carrying the `KeyEventsFor` events when there is a browser |
| BrowserSources.BrowserSource.Destroy | obs-browser-source.cpp:90-99 | the destructor closes the browser synchronously on the live handle, then unlinks exactly this source, writing only the neighbours' link fields |
| BrowserSources.SendBrowserVisibility | obs-browser-source.cpp:52-71 | a direct visibility call is made only when there is a browser |
| BrowserSources.ExecuteOnSource | obs-browser-source.cpp:950-958 | a null source gets nothing; any other source gets the asynchronous path |
| BrowserSources.Registry.constructor | obs-browser-source.cpp:50 | the list starts empty and well linked |
| BrowserSources.Registry.Valid | obs-browser-source.cpp:83-87 | the class invariant: `first_browser` heads the list, each `next` points at the following source, each `p_prev_next` at the slot that refers to its source, and no source appears twice |
| BrowserSources.Registry.ExecuteOnAllBrowsers | obs-browser-source.cpp:960-970 | on a well-linked registry, the walk from `first_browser` (WalkList) queues, source by source in list order, what the asynchronous path queues for each |
| BrowserSources.WalkList | obs-browser-source.cpp:964-969 | the `while (bs)` loop that follows `next` from the head of a well-linked list appends exactly Broadcast of the list's handles to the task log |
| BrowserSources.Registry.DispatchJSEvent | obs-browser-source.cpp:972-989 | without a target the event goes to every source in list order; with one, only to that source |
| BrowserSources.Handles | obs-browser-source.cpp:960-970 | the browsers of the listed sources, position by position |
| BrowserSources.HandlesAppend | obs-browser-source.cpp:966-967 | one more source adds its browser at the end |
| BrowserSources.Broadcast | obs-browser-source.cpp:964-968 | what the walk adds to the log, source by source; BroadcastInListOrder states what it amounts to |
| BrowserSources.BroadcastPrefix | obs-browser-source.cpp:964-968 | one more step of the walk adds that source's submission at the end |
| BrowserSources.Live | obs-browser-source.cpp:124 | the present handles, never more than the sources: every browser on the list is among them, and each of them is the browser of a listed source |
| BrowserSources.RunAll | obs-browser-source.cpp:127 | one Run task per handle, in order |
| BrowserSources.BroadcastInListOrder | obs-browser-source.cpp:960-989 | a broadcast queues exactly one task per source that has a browser, in list order, when the engine accepts tasks, and nothing otherwise |
| BrowserSources.IndexOf | obs-browser-source.cpp:95-98 | the position of a listed source is its first position |
| BrowserSources.RemoveAt | obs-browser-source.cpp:95-98 | removing one position shortens the list by one, keeps the sources before it in place and shifts the ones after it down by one |
| BrowserSources.RemoveAtKeepsOthers | obs-browser-source.cpp:95-98 | on a list without repeats, removing one source keeps exactly the other sources |
| BrowserSources.RemoveAtKeepsOrder | obs-browser-source.cpp:95-98 | removing one source leaves every other pair in the same relative order |

## Left out

- Thread machinery is left out: `browser_list_mutex` and the `os_event_*` wait and signal. A synchronous task is taken to run at its submission, so the handle it finds is the one the source holds then. The event wait only blocks the caller: on the engine thread, tasks queued earlier still run first. The model does not take such a task into account. For example, a pending creation task queued by `Tick` stores a new browser (obs-browser-source.cpp:183) before a later synchronous close reads `cefBrowser` (obs-browser-source.cpp:113-114), but the model's close finds the handle from submission time. For the same reason `RunCreateTask` is not ordered against later submissions: it requires only that its task was queued.
- `QueueCEFTask` internals are left out. Whether it accepts a task is the `Engine.accepting` field, and the model does not run queued tasks except the creation task (`RunCreateTask`). The field does not change during one operation, so all the tasks one operation submits share one verdict. For example, `Update`'s asynchronous close and its `ClearAudio` task are either both taken or both refused. The source's `QueueCEFTask` can accept an earlier task and refuse a later one, as happens at shutdown.
- CEF services (`CreateBrowserSync`, `SendKeyEvent`, `WasHidden`, `CloseBrowser`, `ReloadIgnoreCache`, process messages) are opaque. They appear only as `BrowserOp` entries in the log.
- The mouse, wheel and focus forwarders (obs-browser-source.cpp:232-299) only copy fields into an event, so they are left out.
- Graphics and frame pacing are left out: `Render`, `DestroyTextures`, `SignalBeginFrame`, `reset_frame`, `gs_*` and the shared-texture variant.
- Audio plumbing is left out: the contents of `ClearAudioStreams`'s task and `obs_source_set_audio_active`. The task is logged as `ClearAudio`.
- Serialisation is left out: json11's `dump` of `{"visible": …}` and `{"active": …}` is the value `BoolField`.
- `CefURIEncode`, `to_wide`, `obs_data_get_*` and `obs_source_showing` are foreign calls. They are parameters or the `Data` record.
- The constructor's deferred `obs_source_update(source, nullptr)` is left out.
- Initial field values come from the class declaration in obs-browser-source.hpp, which is not part of this model. `BrowserSource.constructor` takes the initial settings as a parameter and starts with no browser, `create_browser` and `is_showing` false, and `first_update` true.
- Strings are sequences of characters, not bytes. `Upper` follows `toupper` only on ASCII letters, and `EqualIgnoreCaseN` records only whether `astrcmpi_n` returns 0, not its sign.
- `(uint32_t)` conversions of key codes need no wrap: every translated code is at most 0xFE. Native scancodes and modifiers are taken as natural numbers.
- The list lock is left out. The walk in `ExecuteOnAllBrowsers` runs with the list locked, so no source can link or unlink during it. The model gets this by letting the walk modify only the engine log.
- Build configuration: `USE_QT_LOOP` is taken as undefined, so the synchronous path of ExecuteOnBrowser has no current-thread shortcut (obs-browser-source.cpp:104-109) and the asynchronous path goes through `QueueCEFTask`, not `QueueBrowserTask` (obs-browser-source.cpp:124-129). `CHROME_VERSION_BUILD` is taken as at least 3683, so the creation task always has the `SetAudioMuted` step (obs-browser-source.cpp:189-192). `ENABLE_WASHIDDEN` is taken as undefined, so SendBrowserVisibility sends only the Visibility message. The `WasHidden` and `Invalidate` calls (obs-browser-source.cpp:57-64) are not logged by `VisibilityCalls`.

## Findings

| source | as written | input that shows it | evidently intended | confidence | as-written member | corrected member |
|---|---|---|---|---|---|---|
| obs-browser-source.cpp:854 | `n_url.replace(n_url.find("%3A"), 3, ":")` runs unconditionally on Windows. When the encoded path holds no `%3A`, `find` returns npos and `replace` throws std::out_of_range | a local-file source whose path is empty (the setting left blank), or any path without a drive colon | replace the drive-colon escape only when it is present, leaving other paths unchanged | not executed | Settings.ReplaceDriveColonAsWritten (with Settings.DriveColonThrowsOnEmptyPath) | Settings.ReplaceDriveColon (with Settings.ReplaceDriveColonRefinesAsWritten), used by Settings.LocalPath |
| obs-browser-source.cpp:189-191 | when audio is rerouted, the creation task calls `SetAudioMuted` through the pointer CreateBrowserSync returned without checking it for null, while SendBrowserVisibility right after it does check | CreateBrowserSync failing and returning null for a source with "reroute_audio" set | mute the browser only when one was created | not executed | BrowserSources.CreateFollowUpAsWritten | BrowserSources.CreateFollowUp, used by BrowserSources.BrowserSource.RunCreateTask |
