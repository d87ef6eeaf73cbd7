# VEIL Windows client — a verified model of its core

VEIL is a VPN client for Windows. This project models five parts of its core in Dafny and proves properties about them:

- **The TLS record wrapper** (`tls_wrapper.dfy`). It disguises tunnel traffic as TLS 1.2 `application_data` records. `wrap` splits a payload into records of at most 2^14 bytes, each behind a 5-byte header (type, legacy_version `0x0303`, big-endian length). `unwrap` takes the payload of the first record. `unwrap_all` takes the payloads of a whole stream of records. `parse_header` and `build_header` read and write the headers.
- **The updater** (`version.dfy`, `auto_updater.dfy`). Covered here:
  - semantic versions: their text form (`v1.2.3-beta`) and their order;
  - the choice of the installer asset of a release;
  - the list of versions the user chose to ignore;
  - the URL of the release query;
  - the decision whether a fetched release is offered.
- **The system tray** (`system_tray.dfy`). `SystemTray` is a state machine over the connection state (disconnected, connecting, connected, error). It has an animated icon while connecting, a tooltip, balloon notifications and a pop-up menu. `SystemTrayManager` keeps the tray, its menu and its tooltip in step with the connection. The shell calls that change what the user sees (adding the icon, changing the icon, tooltip or balloon, the timers, showing the menu, posting the closing message) and the menu callbacks that fire are recorded, in order, as entries in an effect log.
- **The Windows service** (`service_main.dfy`). This covers:
  - the command-line dispatch of the service executable;
  - the service's run loop and its stop flag;
  - the handler that answers the GUI's IPC commands: connect, disconnect, status, statistics and configuration.
- **GUI start-up** (`gui_client.dfy`). This covers:
  - which interface language is used;
  - which translation catalogs are loaded, and in which order;
  - the start-minimized flag.

`common.dfy` holds the shared `Option` type and text helpers: lower-casing, substring tests and decimal digits.

The client has no translation lookup engine of its own. The GUI only chooses a language and loads `veil_<code>` and `qt_<code>` catalogs into Qt's `QTranslator`, and Qt does every string lookup. The model therefore covers that choice and that load order, and nothing about how a message is looked up.

Values the code gets from outside are parameters of the model:

- the HTTP response;
- the JSON decoding of a release;
- the clock text;
- the outcome of `QTranslator::load`;
- whether `Shell_NotifyIcon` added the tray icon;
- whether `CreatePopupMenu` created the menu;
- the handle `SetTimer` returned;
- the selection returned by `TrackPopupMenu`;
- the outcome of `Tunnel::connect`.

## Model

| member | source | states |
|---|---|---|
| TlsWrapper.ConstantsMatchRfc | src/common/protocol_wrapper/tls_wrapper.h:11-38 | The header is 5 bytes and a record carries at most 2^14 bytes. The four content types are 20-23, and these are exactly the codes 0x14..0x17 that count as known. |
| TlsWrapper.BeU16RoundTrip | src/common/protocol_wrapper/tls_wrapper.cpp:14-22 | Reading a big-endian u16 back at the offset where it was written gives the value. The bytes before it are unchanged. |
| TlsWrapper.BuildHeader | src/common/protocol_wrapper/tls_wrapper.cpp:143-152 | Five bytes: the type, then the high and low bytes of the version, then the high and low bytes of the length. Both u16 fields read back as written. |
| TlsWrapper.ParseHeader | src/common/protocol_wrapper/tls_wrapper.cpp:112-141 | Succeeds exactly when there are at least 5 bytes, the type is known and the length is at most 2^14. The parsed header then holds the buffer's fields, and the payload starts at offset 5. |
| TlsWrapper.ParseBuildRoundTrip | src/common/protocol_wrapper/tls_wrapper.cpp:112-152 | A built header of known type and admissible length parses back to itself, whatever bytes follow it. |
| TlsWrapper.ParseRejectsUnknownType | src/common/protocol_wrapper/tls_wrapper.cpp:124-133 | A header with a type byte outside the four codes is refused. |
| TlsWrapper.ParseRejectsOversizedLength | src/common/protocol_wrapper/tls_wrapper.cpp:135-138 | A header announcing more than 2^14 bytes is refused. |
| TlsWrapper.Unwrap | src/common/protocol_wrapper/tls_wrapper.cpp:55-78 | Succeeds exactly when the first record parses, is application_data and is complete. The result is that record's payload. |
| TlsWrapper.ChunksShape | src/common/protocol_wrapper/tls_wrapper.cpp:34-50 | The chunks concatenate back to the input. Every chunk but the last is exactly 2^14 bytes. The last chunk is non-empty, except that empty input gives one empty chunk. |
| TlsWrapper.FrameSize | src/common/protocol_wrapper/tls_wrapper.cpp:34-50 | A framed stream is 5 bytes per record plus the payload bytes. |
| TlsWrapper.WrapSize | src/common/protocol_wrapper/tls_wrapper.cpp:26-53 | The output of `wrap` is the input plus 5 bytes per record. |
| TlsWrapper.WrapEmpty | src/common/protocol_wrapper/tls_wrapper.cpp:26-53 | Wrapping nothing still emits one header with length 0. |
| TlsWrapper.UnwrapFirstRecord | src/common/protocol_wrapper/tls_wrapper.cpp:55-78 | `unwrap` returns exactly the chunk of a record that `wrap` built, whatever follows it. |
| TlsWrapper.UnwrapOfWrap | src/common/protocol_wrapper/tls_wrapper.cpp:26-78 | `unwrap` of `wrap(d)` is `d` when `d` fits one record; otherwise it is the first 2^14 bytes of `d`. |
| TlsWrapper.DeframeFrame | src/common/protocol_wrapper/tls_wrapper.cpp:80-110 | `unwrap_all` reads a run of well-sized records as their concatenated payloads, then continues with what follows. |
| TlsWrapper.UnwrapAllOfWrap | src/common/protocol_wrapper/tls_wrapper.cpp:26-110 | `unwrap_all(wrap(d)) == d` for every byte string `d`. |
| TlsWrapper.UnwrapAllRejectsTrailingGarbage | src/common/protocol_wrapper/tls_wrapper.cpp:85-108 | Valid records followed by bytes that do not form a record make the whole stream fail. |
| TlsWrapper.RecordsOf | src/common/protocol_wrapper/tls_wrapper.cpp:34-50 | Record i of a framed stream is an application_data header with version 0x0303 and the length of chunk i, carrying chunk i. |
| TlsWrapper.ParseRecordsOfFrame | src/common/protocol_wrapper/tls_wrapper.h:62-76 | A framed stream parses into exactly the records it was built from, header and payload. |
| TlsWrapper.WrapRecords | src/common/protocol_wrapper/tls_wrapper.h:62-76 | Every record of `wrap`'s output is an application_data TLS 1.2 record of at most 2^14 bytes, and there is no trailing byte. |
| TlsWrapper.Wrap | src/common/protocol_wrapper/tls_wrapper.cpp:26-53 | The do-while loop emits exactly the record framing of the chunked input. |
| TlsWrapper.UnwrapAll | src/common/protocol_wrapper/tls_wrapper.cpp:80-110 | The offset loop computes the record-by-record deframing: all payloads in order, or failure at the first bad record. |
| Versions.ScanSound | src/common/updater/auto_updater.cpp:43-62 | Whatever the parser accepts is a well-formed version text, and that text prints back to the input exactly. |
| Versions.ScanUnparse | src/common/updater/auto_updater.cpp:43-62 | Every well-formed version text, with or without `v` and with or without a pre-release suffix, is accepted and read back to its parts. |
| Versions.ParseMeaning | src/common/updater/auto_updater.cpp:43-62 | `parse` succeeds exactly when the input is `[v]MAJOR.MINOR.PATCH[-PRE]`, with digit groups and a pre-release without a line break. The result is then made of those parts. |
| Versions.ParsePrereleaseTags | src/common/updater/auto_updater.cpp:43-62 | `v1.0.0-alpha.10` parses with the pre-release text `alpha.10`. |
| Versions.ParseToString | src/common/updater/auto_updater.cpp:43-71 | Parsing the printed form of a version gives the version back. |
| Versions.StringLessIrreflexive | src/common/updater/auto_updater.cpp:73-83 | No pre-release text is below itself in the string order. |
| Versions.StringLessTransitive | src/common/updater/auto_updater.cpp:73-83 | The string order on pre-release texts is transitive. |
| Versions.StringLessTotal | src/common/updater/auto_updater.cpp:73-83 | Any two distinct pre-release texts are comparable. |
| Versions.LessTrichotomy | src/common/updater/auto_updater.cpp:73-92 | For any two versions exactly one holds: a < b, b < a, or a == b. |
| Versions.LessTransitive | src/common/updater/auto_updater.cpp:73-83 | The version order is transitive. |
| Versions.DerivedOperators | src/common/updater/auto_updater.cpp:85-104 | `<=`, `>=`, `>` and `!=` agree with `<` and `==` as for a strict total order. |
| Versions.ReleaseAbovePrerelease | src/common/updater/auto_updater.cpp:73-83 | A release is above every pre-release with the same numbers. |
| Versions.PrereleaseComparedAsText | src/common/updater/auto_updater.cpp:82 | Pre-releases compare as plain text, so `alpha.10` is below `alpha.2`. |
| Updater.FirstInstaller | src/common/updater/auto_updater.cpp:110-139 | The result is the first asset that qualifies: a Windows installer by extension or marker, not flagged as another platform. None is returned exactly when no asset qualifies. |
| Updater.FindPattern | src/common/updater/auto_updater.cpp:131-135 | The pattern loop reports a match exactly when the lower-cased name contains one of the four installer patterns. |
| Updater.AcceptsAsset | src/common/updater/auto_updater.cpp:118-135 | One pass of the asset loop accepts an asset exactly when it is a Windows installer: not another platform, and a pattern matches. |
| Updater.FirstInstallerStep | src/common/updater/auto_updater.cpp:118-136 | The search from asset `i` stops at `i` when that asset is accepted and otherwise goes on with the rest of the list. |
| Updater.FindInstaller | src/common/updater/auto_updater.cpp:109-139 | The asset loop with early return picks exactly that first qualifying asset, or none. |
| TlsWrapper.DeframeFromMeaning | src/common/protocol_wrapper/tls_wrapper.cpp:80-110 | Resuming the deframing at any offset with the payloads gathered so far gives those payloads followed by the deframing of the rest. |
| Updater.WithIgnored | src/common/updater/auto_updater.cpp:543-547 | After ignoring v, the list contains old entries plus v and nothing else. It keeps old entries in order, grows by at most one and stays free of duplicates. |
| Updater.IgnoreIdempotent | src/common/updater/auto_updater.cpp:543-547 | Ignoring the same version twice is the same as ignoring it once. |
| Updater.UpdateUrl | src/common/updater/auto_updater.cpp:364-372 | A custom update URL, when set, is used as given. Otherwise the URL is the GitHub latest-release endpoint of the configured owner and repository. |
| Updater.DefaultUrlNamesRepository | src/common/updater/auto_updater.cpp:364-372 | The default URL is the GitHub API prefix, then the owner, then `/` and the repository, and it ends in `/releases/latest`. |
| Updater.NeverOfferedBack | src/common/updater/auto_updater.cpp:428-448 | A release not above the running version is never offered. |
| Updater.IgnoredStaysRejected | src/common/updater/auto_updater.cpp:428-448 | Once a version is ignored, a release of it is not offered, whatever is ignored later. |
| Updater.PrereleaseNeedsOptIn | src/common/updater/auto_updater.cpp:428-448 | An offered pre-release implies that pre-releases were enabled. |
| Updater.DraftFlagIgnored | src/common/updater/auto_updater.cpp:426-448 | Whether a release is offered does not depend on its draft flag. |
| Updater.AutoUpdater.constructor | src/common/updater/auto_updater.cpp:340-341 | A new updater holds its configuration, ignores nothing, has no cached release and no check time. |
| Updater.AutoUpdater.OnError | src/common/updater/auto_updater.cpp:535-537 | Installs the error callback and changes nothing else. |
| Updater.AutoUpdater.IsVersionIgnored | src/common/updater/auto_updater.cpp:549-552 | The search answers true exactly when the version is in the ignored list. |
| Updater.AutoUpdater.IgnoreVersion | src/common/updater/auto_updater.cpp:543-547 | The list becomes `WithIgnored` of the old list, keeping it free of duplicates. Nothing else changes. |
| Updater.AutoUpdater.CheckForUpdatesSync | src/common/updater/auto_updater.cpp:363-457 | The URL is queried. An empty body reports the HTTP error. A decode failure reports "Parse error: ...". A bad tag yields nothing, before the assets are read; a malformed asset behind a valid tag then reports "Parse error: ...". Otherwise the check time is stamped, and the release is returned and cached exactly when it is offered. |
| Tray.Truncate | src/windows/system_tray.cpp:110-123 | The copied text is a prefix of the input. It is the whole input when that fits, and exactly the buffer's capacity of characters when it does not. |
| Tray.IconAnimation | src/windows/system_tray.cpp:171-195 | Each animation tick changes the icon while connecting and never otherwise. Outside connecting, distinct states show distinct icons. |
| Tray.Selected | src/windows/system_tray.cpp:197-245 | A selection fires a callback exactly when its id names an item of the list (ids 1..n) that is enabled and has a callback. It is then that item's callback; 0 (menu dismissed) fires nothing. |
| Tray.SelectionMatchesEntries | src/windows/system_tray.cpp:205-222 | Every string entry shown has a distinct id in 1..n and stands for a non-separator item. Choosing it fires that item's callback exactly when the item is enabled. |
| Tray.BuildPopupMenu | src/windows/system_tray.cpp:205-222 | The menu-building loop with its id counter produces exactly the pop-up entries of the items. |
| Tray.StateChange | src/windows/system_tray.cpp:91-108 | After `set_state` the timer runs only in the connecting state; entering connecting restarts the frame and keeps the `SetTimer` handle; with icons loaded the new state's icon is shown; at most two calls are made, and a change between two states other than connecting is only the icon refresh. |
| Tray.NotifiedOnlyOnChange | src/windows/system_tray.cpp:171-195 | The shell is told of a new icon exactly when the icon shown changes. |
| Tray.SystemTray.constructor | src/windows/system_tray.h:91-105 | A new tray is disconnected and uninitialised, with no timer, no icon and an empty menu. |
| Tray.SystemTray.Init | src/windows/system_tray.cpp:28-62 | Loads the icons and shows the disconnected icon with the tooltip truncated to 127 characters. It succeeds exactly when the shell accepted the icon. |
| Tray.SystemTray.SetState | src/windows/system_tray.cpp:91-108 | The state becomes the new one. The frame, the timer handle, the shown icon and the calls made are those of the `set_state` transition: nothing on the same state, otherwise the timer start or kill and then the icon refresh. |
| Tray.SystemTray.SetTooltip | src/windows/system_tray.cpp:110-114 | The tooltip becomes the text truncated to 127 characters, and the shell is told. |
| Tray.SystemTray.ShowNotification | src/windows/system_tray.cpp:116-123 | Shows one balloon with the title truncated to 63 and the message to 255 characters. |
| Tray.SystemTray.SetMenu | src/windows/system_tray.cpp:125-127 | Replaces the menu items only. |
| Tray.SystemTray.HandleMessage | src/windows/system_tray.cpp:129-165 | Handled exactly for the tray callback message and the animation timer. A timer tick advances the frame modulo 4 and refreshes the icon. A right click shows the menu. A left click with wParam 1, or a balloon click, fires the first item's callback. |
| Tray.SystemTray.UpdateIcon | src/windows/system_tray.cpp:171-195 | Shows the icon of the state and frame once icons are loaded, and tells the shell only on a change. |
| Tray.SystemTray.ShowContextMenu | src/windows/system_tray.cpp:197-245 | Shows the pop-up menu when one could be created, fires the selected entry's callback and posts the closing null message. |
| Tray.UnitFor | src/windows/system_tray.cpp:406-421 | A count is shown in B below 1024, in KB below 1024^2, in MB below 1024^3 and in GB from there on. |
| Tray.FormatBytes | src/windows/system_tray.cpp:406-421 | Counts of 1 KB or more are rendered by the scaled formatter in the chosen unit. |
| Tray.FormatSmallBytes | src/windows/system_tray.cpp:406-421 | Counts below 1024 print as their decimal digits followed by " B", and the digits read back to the count. |
| Tray.MenuFor | src/windows/system_tray.cpp:376-404 | The menu always has 7 items, with separators in positions 1, 3 and 5. |
| Tray.MenuChoices | src/windows/system_tray.cpp:376-404 | With callbacks installed, id 1 shows the window and 5 opens the settings. Id 3 disconnects when connected, does nothing while connecting and connects otherwise. Id 7 exits, and every other id does nothing. |
| Tray.SystemTrayManager.constructor | src/windows/system_tray.h:146-151 | A new manager is disconnected, without error or statistics, and owns a fresh tray. |
| Tray.SystemTrayManager.Init | src/windows/system_tray.cpp:301-314 | Installs the callbacks and the seven-item menu. The tray loads its icons, shows the disconnected icon, logs the icon being added with the disconnected tooltip, and is initialised exactly when the shell added the icon (or it already was). Nothing else changes. |
| Tray.SystemTrayManager.SetConnected | src/windows/system_tray.cpp:316-331 | Records the connection and clears connecting and the error. The tray goes through the `set_state` transition to connected or disconnected, then logs the matching tooltip and, when connected, the "Connected to VPN server" info balloon. The menu matches the new flags. |
| Tray.SystemTrayManager.SetConnecting | src/windows/system_tray.cpp:333-339 | Marks connecting and clears the error. The tray goes through the `set_state` transition to connecting (frame, timer, icon and calls), then logs the connecting tooltip. The menu shows the disabled "Connecting..." item unless connected. |
| Tray.SystemTrayManager.SetError | src/windows/system_tray.cpp:341-349 | Clears both flags and keeps the message. The tray goes through the `set_state` transition to the error state, then logs the truncated "VEIL VPN - Error: ..." tooltip and the error balloon, in that order. |
| Tray.SystemTrayManager.UpdateStats | src/windows/system_tray.cpp:351-363 | Stores the counters and keeps the tray invariant. Only while connected, the tooltip becomes the sent/received summary, with one tooltip call; every other tray field stays. |
| Tray.SystemTrayManager.HandleMessage | src/windows/system_tray.cpp:372-374 | Forwards to the tray and passes on its whole contract: what is handled, the frame and icon on a timer tick, and the calls a click makes. |
| Tray.SystemTrayManager.UpdateMenu | src/windows/system_tray.cpp:376-404 | The tray's menu becomes the menu of the current connection state and nothing else changes. |
| Service.Stoi | src/windows/service_main.cpp:333-336 | A successful `std::stoi` yields a value within the 32-bit `int` range. |
| Service.StoiMeaning | src/windows/service_main.cpp:333-336 | After leading white space and one optional sign, `stoi` fails when no digit follows or when the signed value of the digit run is outside the 32-bit `int` range; otherwise it returns that value. |
| Service.StoiOfDecimal | src/windows/service_main.cpp:333-336 | A decimal in range, followed by anything not a digit, converts to its value. |
| Service.ToPort | src/windows/service_main.cpp:335 | The cast to `uint16_t` keeps the value modulo 65536 and lands in 0..65535. |
| Service.ConnectTarget | src/windows/service_main.cpp:324-336 | The host is the `host` parameter or 127.0.0.1. The port is 4433 without a `port` parameter, otherwise the `stoi` value cast to 16 bits. The command fails exactly when a `port` parameter is present and `stoi` throws on it. |
| Service.PortParameter | src/windows/service_main.cpp:333-336 | A decimal port parameter connects to that port modulo 65536. |
| Service.PortWrapsAround | src/windows/service_main.cpp:335 | Port 70000 wraps to 4464, and -1 wraps to 65535. |
| Service.AnsweredOnceWithRequestId | src/windows/service_main.cpp:305-433 | Unless `stoi` throws, the client gets exactly one response carrying the request id. Non-command messages are ignored. |
| Service.ConnectOutcome | src/windows/service_main.cpp:319-360 | Connecting is refused, with the tunnel unchanged, when already connected ("Already connected") or when there is no tunnel ("Tunnel not initialized"). Otherwise the tunnel becomes connected exactly when the attempt succeeds. Success broadcasts "connected" with host:port; failure reports the error text. |
| Service.ConnectDefaults | src/windows/service_main.cpp:324-360 | Without parameters the service connects to 127.0.0.1:4433. |
| Service.DisconnectOutcome | src/windows/service_main.cpp:362-380 | Disconnecting while connected succeeds and broadcasts the disconnected event; otherwise it reports "Not connected". |
| Service.StatusReport | src/windows/service_main.cpp:382-393 | The status answer always succeeds. It says "true" exactly when the tunnel is connected, and carries an error entry exactly when there is no tunnel. The tunnel is unchanged. |
| Service.StatisticsReport | src/windows/service_main.cpp:395-405 | Statistics always succeed. With a tunnel they report its four counters as decimal text that reads back to each counter; without one they report no data. |
| Service.ConfigAccepted | src/windows/service_main.cpp:407-418 | Setting and getting the configuration both succeed with no data and change nothing. |
| Service.UnknownCommandRefused | src/windows/service_main.cpp:420-423 | An unknown command is answered with failure and "Unknown command". |
| Service.DispatchMatchesHelp | src/windows/service_main.cpp:40-157 | The first argument selects an action exactly when it is one of that action's flags. Any other argument is reported as unknown. |
| Service.ExitCode | src/windows/service_main.cpp:40-178 | The exit status is 0 or 1. Unknown arguments exit with 1; debug mode and help exit with 0. For install, uninstall, start, stop, status and the dispatcher, the status is 0 exactly when the step succeeded. |
| Service.ServiceState.constructor | src/windows/service_main.cpp:26-28 | The service starts not running, with no tunnel and nothing sent. |
| Service.ServiceState.StopService | src/windows/service_main.cpp:297-299 | Clears the running flag only. |
| Service.ServiceState.RunService | src/windows/service_main.cpp:214-295 | The loop runs until the first stop request, polling once per pass. The tunnel is then disconnected and released. |
| Service.ServiceState.HandleIpcMessage | src/windows/service_main.cpp:305-433 | The new tunnel state and the messages sent are exactly those of the handler's outcome, broadcasts first and then the response to the client. |
| GuiClient.ResolveLanguage | src/gui-client/main.cpp:61-78 | The resolved language is always one with a shipped catalog. |
| GuiClient.ResolutionSteps | src/gui-client/main.cpp:61-78 | A supported stored setting wins. Otherwise the first two characters of the system locale are used when supported. Otherwise English is used, which is also the default when nothing is stored. |
| GuiClient.ResolutionStable | src/gui-client/main.cpp:61-78 | Storing the resolved language makes the next start choose it again, whatever the locale. |
| GuiClient.CatalogShipped | src/gui-client/main.cpp:84-94 | The application catalog asked for, `veil_<code>`, is always one of the shipped catalogs. |
| GuiClient.CatalogsDistinct | src/gui-client/main.cpp:84-94 | Distinct languages ask for distinct `veil_<code>` and `qt_<code>` catalogs, and a Qt catalog name is never an application catalog name. |
| GuiClient.LoadTranslations | src/gui-client/main.cpp:83-110 | At most two catalogs are installed, and each one installed is a file and directory whose load succeeded. |
| GuiClient.DirectoryBeforeResources | src/gui-client/main.cpp:83-110 | Qt's catalog comes first when it loads. The catalog next to the executable is preferred, and the bundled resource is installed exactly when that load fails and the resource loads. |
| GuiClient.StartMinimized | src/gui-client/main.cpp:141-142 | The start-minimized flag is set exactly when the arguments include `--minimized` or `-m`. |

## Left out

- HTTP transport (`http_get`, `http_download`, over WinINet on Windows and libcurl elsewhere) is external I/O. The response body and error are a parameter of `CheckForUpdatesSync`.
- The JSON decoding of the release document (nlohmann::json) is external. It is a parameter that returns either a decode failure or the release's fields, with the `assets` array decoded separately (its entries, or the failure of a malformed entry), because the source reads the assets only after the tag has parsed.
- `check_for_updates` and `download_update` only run work on a detached thread, and `download_update` is network I/O. Neither is modelled.
- `install_update` launches a process and exits. It is not modelled.
- `show_update_dialog` and `get_cached_release` are not modelled. The first is UI; the second is a plain field read.
- The timestamp text that `ctime` produces is a parameter of `CheckForUpdatesSync`.
- `Updater.CurrentVersion` is the constant 1.0.0 that `current_version` falls back to. The compile-time `VEIL_VERSION` string is not modelled.
- Versions.Parse: `std::stoi` on a digit group longer than `int` would throw. The model reads groups as unbounded naturals.
- The header `auto_updater.h` is not part of this model. The record fields are reconstructed from their uses in `auto_updater.cpp`.
- Win32 calls in the tray are recorded as entries of an effect log rather than performed. The log holds `Shell_NotifyIcon` with `NIM_ADD` and `NIM_MODIFY`, `SetTimer`, `KillTimer`, the shown popup menu and `PostMessage`. Calls with no lasting effect the model tracks are not logged: `NIM_SETVERSION`, `GetCursorPos`, `SetForegroundWindow`, `AppendMenu` one by one and `DestroyMenu`. A failed `CreatePopupMenu` is a parameter and logs nothing.
- Icon loading is not a parameter: each `load_icon_*` falls back to a system icon, so the model takes the four icons as always loaded after `init`. Icon handles are modelled as the state and frame they show.
- Window class registration, `shutdown` and the destructor of the tray release handles. They are not modelled.
- Tray callbacks are recorded as the action that fires. What the action does, such as showing the main window, is outside the model.
- Tray.FormatBytes: the fixed-point rendering with one decimal (`std::fixed` and `std::setprecision(1)`) of KB, MB and GB counts is a parameter. Floating point is not modelled.
- Tray.Truncate: strings are modelled as sequences of characters, not bytes. The tooltip and balloon limits of 127, 63 and 255 count bytes of a `std::string`, so for text outside ASCII the model keeps more characters than the source keeps.
- Tray.SystemTrayManager.UpdateStats: the concatenation order of the tooltip is modelled; its rendering of each count is the parameter above.
- The Win32 service control dispatcher is not modelled. This includes `service_main`, the status reporting and the `--install`, `--uninstall`, `--start` and `--stop` actions, which call the Service Control Manager and elevation. The model keeps only which action the arguments select and its exit status in `ExitCode`.
- Service.ServiceState.RunService: a run that is never stopped is not modelled. The stop schedule must contain a stop request, so the loop terminates.
- Service.ServiceState.RunService: the IPC server start, the message polling and the tunnel construction are folded into one poll per pass. Messages are not interleaved with passes, and there is no concurrency with `stop_service`.
- Service.ConnectTarget: an out-of-range or non-numeric port makes `std::stoi` throw. The model records that the exception escapes the handler rather than unwinding further.
- The tunnel and the IPC server are external. `connect`'s outcome is a parameter; the statistics and the status are fields of the tunnel state.
- The header `ipc_protocol.h` is not part of this model. The message and response shapes are reconstructed from their uses in `service_main.cpp`.
- Service.ServiceState.HandleIpcMessage: a failing `send_message` is not modelled. Every response is taken as delivered.
- GuiClient.StartMinimized: the code shown does not act on the flag. Both branches of main.cpp:148-154 call `window.show()`, and the flag only selects a log line. The hiding that the comment there attributes to the `MainWindow` constructor is not in the code shown, so the model promises only the flag's value, not that the window starts hidden.
- The Qt application bootstrap of the GUI client is not modelled: the window, the settings store, the single-instance guard and the event loop. The stored language setting, the system locale name and the outcome of `QTranslator::load` are parameters.
- The translation catalogs (`translations/*.ts`) are data rather than code. Only their names are modelled.
- The test and experiment files, `shortcut_manager.h`, `mainwindow.h` and the GUI server's `main.cpp` are not part of this model.
