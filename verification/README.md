# Verification of the projector application's state machines and formats

The projector application is an LVGL user interface around vendor libraries. Underneath it
holds state machines that several threads share, in-place algorithms over fixed arrays, and
text formats written and read in the same source. This project models those pieces in Dafny
4.11 and proves what they promise. `dafny verify dfyconfig.toml` checks everything.

## How the model is built

Each component is one module (the DLNA renderer is eight, the `wpa_supplicant.conf` lookup
five, the radios and the two pages two each). A module holds

* a value type for the state at one instant, a function for every operation of the source,
  and `Step`, `Run`: one atomic step of one actor, and a run of any sequence of steps. The
  steps of different threads come in any order, so a statement about every `Run` is a
  statement about every interleaving;
* lemmas about every reachable state or every run;
* a class with the source's variables or arrays, whose methods follow the source's
  statements and are proved to change the state as the functions say.

What a library, a clock or another thread answers is a parameter of the step. Calls into a
library appear as histories (players created and destroyed, service calls made, payloads
freed), which is what the lifecycle properties speak about.

| module | models |
|---|---|
| `DlnaPlayer`, `DlnaStatus`, `DlnaDestroy`, `DlnaLoss`, `DlnaAdvert`, `DlnaThread`, `DlnaCalls`, `DlnaRenderer` | the DLNA renderer: API calls, player callbacks and the message thread |
| `DlnaSeek` | seek presses and the growing jump, in 32-bit arithmetic |
| `WiredCast` | the two wired cast services, their lifecycle and their arbitration |
| `CastHandles` | the renderer and AWD handles of the wireless cast module |
| `WifiScan`, `Qsort` | in-place de-duplication of a scan, and the sort after it |
| `WifiLists` | the saved list and the scan list of the Wi-Fi page |
| `RadioPower`, `RadioUse` | switching Wi-Fi and Bluetooth on and off, with the state file |
| `UiMessages`, `UiHandling` | the message queue of the two pages, payload ownership, leaving a page |
| `CText`, `HexText`, `WpaConf`, `WpaFile`, `WpaLookup` | finding a saved network's passphrase |
| `BtScan` | announcing discovered Bluetooth devices |
| `BtConnFile` | the Bluetooth connection-state file |
| `NoSignalBox` | the bouncing "no signal" box |
| `Keystone` | manual keystone correction and its arrow icons |

## Where the code falls short

Each of these is proved: the exact condition is a lemma, and a failing run or input is given.

* Destroying the DLNA renderer takes no lock. On some schedule it leaks a player exactly when,
  at the moment it is entered, a set-url message is queued or in the message thread's hands
  and not yet past creating, or a live player's advert can still end; it destroys a player
  twice exactly in those cases and while a new player is being checked; and its NULL can land
  on a new player's handle (`DlnaDestroy.DestroyLeaksIff`, `DestroyWrongIff`,
  `DlnaLoss.DestroyLosesIff`; reached by `AdvertInsideDestroy` and `AdvertLosesHandle`).
* The player callback takes no lock. A "ready" that lands inside a stop, or inside a set-url
  that ends without a new player, leaves the status active without a handle, and nothing else
  does (`DlnaStatus.ActiveHasHandleIff`, `ReadyInsideStop`).
* An advert that ends between the two time reads of a seek press makes the press seek
  (`DlnaSeek.AdvertSeekIff`).
* A STOP delivered after the wired cast page is gone restarts services with no page, and so
  does BACK on the screen a late START shows; no other event breaks the lifecycle
  (`WiredCast.EveryRunLawfulIff`, `StrayStopRestarts`, `LateStartThenBack`).
* An init of the wireless cast module that meets held handles loses them
  (`CastHandles.EveryHandleOnceIff`).
* The seek burst counter is a 32-bit `int`: the jump law holds exactly for runs whose
  bursts have at most 214748 presses (`DlnaSeek.JumpLawIff`).
* After a Wi-Fi initialisation failure the "switching on" mark stays, and every switch-off is
  refused without a trace (`RadioPower.OffRefusedIff`).
* The `StopScanProc` message posted when the Wi-Fi page is left never takes effect
  (`UiMessages.LeavingHandlesOnlyStops`).
* Looking up a saved network goes wrong for quoted SSIDs with a blank or `#`, for passphrases
  with a quote, for quoted texts with `key_mgmt=` or `proto=`, and when an earlier passphrase
  contains `ssid=` and reads as the SSID (`WpaLookup.LookupRightIff`, `TrickySsid`,
  `TrickyPassphrase`, `TrickyNeighbour`).
* The connection-state file returns an address of 127 characters only with an empty name
  (`BtConnFile.RoundTripIff`).
* A keystone icon is wrong exactly for an outward arrow at coordinate 1, which even steps from
  zero never reach (`Keystone.IconWrongIff`).

## Model

| member | source | states |
|---|---|---|
| DlnaPlayer.OnePlayerAlways | lv_projector/src/AWCast/cedarx_player_dlna.c:100-331 | until destroy is entered, at every instant of every interleaving of API calls, callbacks and message-thread steps, also between testing the handle, the library call and writing NULL: one player alive at most, the handle names it, and every other one was destroyed exactly once |
| DlnaPlayer.RunKeeps | lv_projector/src/AWCast/cedarx_player_dlna.c:369-508 | over every run: until destroy is entered the handle tells the live player; and always, stale messages included, the stored URL is the last one asked for, and mutex, thread and destroy fit together |
| DlnaStatus.ActiveHasHandleIff | lv_projector/src/AWCast/cedarx_player_dlna.c:429-508 | over every run, with the mutex free and destroy not entered, an active status has a live handle, if and only if no "ready" was the last word inside a stop or inside a set-url that then ended without a player |
| DlnaStatus.SeenHasHandleIff | lv_projector/src/AWCast/cedarx_player_dlna.c:429-508 | the same at every instant until destroy is entered, also inside calls: if and only if no "ready" was the last word before a stop or a set-url destroyed a player |
| DlnaStatus.StepStatusIff | lv_projector/src/AWCast/cedarx_player_dlna.c:100-165 | a single step strands the status exactly when it ends such a call |
| DlnaStatus.ReadyInsideStop | lv_projector/src/AWCast/cedarx_player_dlna.c:495-503 | a "ready" between stopping and destroying leaves PREPARED without a handle whatever the library answers |
| DlnaStatus.NoticeInsideSetUrl | lv_projector/src/AWCast/cedarx_player_dlna.c:429-463 | a notice inside set-url does so exactly when it says "ready" and no new player comes up |
| DlnaStatus.QuietCallsNeverStrand | lv_projector/src/AWCast/cedarx_player_dlna.c:429-508 | runs without a "ready" inside a call that holds the mutex never strand the status |
| DlnaDestroy.DestroyLeaksIff | lv_projector/src/AWCast/cedarx_player_dlna.c:613-636 | some schedule of destroy leaves a player alive that nobody destroys, if and only if at the moment it is entered a set-url request is queued or in the message thread's hands before creating, or a live player's advert can still end |
| DlnaDestroy.DestroyWrongIff | lv_projector/src/AWCast/cedarx_player_dlna.c:613-636 | some schedule destroys a player twice, or NULL, if and only if one of these holds or the thread is between creating a player and knowing that it is good |
| DlnaLoss.DestroyLosesIff | lv_projector/src/AWCast/cedarx_player_dlna.c:613-636 | some schedule ends with destroy's NULL over the handle of a live player, so that nobody holds it, if and only if at the moment destroy is entered a live player's advert can still end, or a request is pending and a handle is held, or a request is pending and a second one is there or will come |
| DlnaLoss.AdvertLosesHandle | lv_projector/src/AWCast/cedarx_player_dlna.c:127-136 | destroyed while the advert plays and nothing is pending, for every advert, URL and title: some continuation of that run loses a player so |
| DlnaDestroy.AdvertInsideDestroy | lv_projector/src/AWCast/cedarx_player_dlna.c:127-136 | for every advert, URL and title, destroyed while the advert plays and nothing is pending: some continuation of that run leaks a player, and some continuation destroys one twice |
| DlnaDestroy.AdvertThenDestroyLeaks | lv_projector/src/AWCast/cedarx_player_dlna.c:127-136 | the same run leaks a player on some continuation when the advert ended just before destroy |
| DlnaDestroy.AdvertPlaysState | lv_projector/src/AWCast/cedarx_player_dlna.c:429-466 | before destroy in that run the advert is the only source, nothing is queued or held, and its end is still to come |
| DlnaAdvert.SourceAfterAdvert | lv_projector/src/AWCast/cedarx_player_dlna.c:231-241 | after the advert completed, a step sets at most one source, and it is the most recent user URL |
| DlnaAdvert.SourceBeforeAdvert | lv_projector/src/AWCast/cedarx_player_dlna.c:231-241 | while the advert is pending every source set is the advert |
| DlnaAdvert.NoAdvertAgain | lv_projector/src/AWCast/cedarx_player_dlna.c:127-144 | over every run after the advert completed no source is the advert, and earlier sources stay |
| DlnaAdvert.LaterSourcesLatest | lv_projector/src/AWCast/cedarx_player_dlna.c:231-241 | over every run after the advert completed, whatever a step sets as source is the URL last asked for at that moment |
| DlnaAdvert.AdvertHandsOver | lv_projector/src/AWCast/cedarx_player_dlna.c:412-415 | the end of the advert queues a request whose handling, after any further events, starts the latest user URL, also one given meanwhile |
| DlnaAdvert.ReadsAgree | lv_projector/src/AWCast/cedarx_player_dlna.c:569-603 | a duration once read is kept whatever the player says later; a position is the last one the player gave |
| DlnaThread.ReadyPlays | lv_projector/src/AWCast/cedarx_player_dlna.c:116-125 | a player that reports "ready" is started: in any run of the message thread with a library that works, whatever was queued before, once its messages are served the status is playing and a player is held |
| DlnaThread.ReadyIsServed | lv_projector/src/AWCast/cedarx_player_dlna.c:369-421 | and such a run exists from every such state |
| DlnaThread.LastServed | lv_projector/src/AWCast/cedarx_player_dlna.c:369-421 | the last thing a thread that has served all its messages did was to handle the last message, with a player held |
| DlnaThread.DestroyEnds | lv_projector/src/AWCast/cedarx_player_dlna.c:613-636 | from every state in which destroy was entered it and the message thread come to the end, with a library that works |
| DlnaThread.SeekReaches | lv_projector/src/AWCast/cedarx_player_dlna.c:399-408 | once the messages are served, a seek has reached the library with the time given |
| DlnaThread.SeeksAskLatest | lv_projector/src/AWCast/cedarx_player_dlna.c:560-567 | over every interleaving, until the next seek call each seek asked of the library is for the time last given |
| DlnaThread.SeekOnLive | lv_projector/src/AWCast/cedarx_player_dlna.c:399-408 | until destroy is entered a seek is asked of the library only with a live player held |
| DlnaThread.MutexWaits | lv_projector/src/AWCast/cedarx_player_dlna.c:429-547 | while a call holds the mutex the other calls that take it wait |
| DlnaThread.SetUrlLeaves | lv_projector/src/AWCast/cedarx_player_dlna.c:429-466 | what a whole set-url leaves for every answer of the library: player, status, source, URL, cut title, duration |
| DlnaThread.StopLeaves | lv_projector/src/AWCast/cedarx_player_dlna.c:486-508 | what a whole stop leaves; nothing changes when already stopped |
| DlnaThread.NoticesLeave | lv_projector/src/AWCast/cedarx_player_dlna.c:100-165 | what each notice leaves of status, queue and advert |
| DlnaThread.PauseResume | lv_projector/src/AWCast/cedarx_player_dlna.c:531-558 | a held player is paused and then playing, with the statuses before kept; without one neither changes the status |
| DlnaThread.ReadsFetch | lv_projector/src/AWCast/cedarx_player_dlna.c:569-603 | with the advert over a read returns what the held player says, the duration only until one is known, and without a player what was known last |
| DlnaCalls.SetUrlIsSteps | lv_projector/src/AWCast/cedarx_player_dlna.c:429-466 | a whole set-url nobody interrupts is its steps one after the other |
| DlnaCalls.StopIsSteps | lv_projector/src/AWCast/cedarx_player_dlna.c:486-508 | the same for stop |
| DlnaCalls.HandledIsSteps | lv_projector/src/AWCast/cedarx_player_dlna.c:379-421 | the same for the message thread on any message |
| DlnaCalls.DestroyIsSteps | lv_projector/src/AWCast/cedarx_player_dlna.c:613-621 | the same for the first part of destroy when nothing comes in between |
| DlnaRenderer.HandledHereIsHandled | lv_projector/src/AWCast/cedarx_player_dlna.c:379-421 | what the class does for a message is what the whole message does to the state, the seek included |
| DlnaRenderer.Renderer.InitPlayer | lv_projector/src/AWCast/cedarx_player_dlna.c:184-221 | creates a player, destroys it again when its check fails, and reports which |
| DlnaRenderer.Renderer.Prepare | lv_projector/src/AWCast/cedarx_player_dlna.c:223-260 | marks the renderer preparing and sets advert or user URL as source, only with a handle |
| DlnaRenderer.Renderer.SetDataUrl | lv_projector/src/AWCast/cedarx_player_dlna.c:429-466 | idle, old player destroyed, then the new one created and prepared unless the URL is NULL |
| DlnaRenderer.Renderer.StopRender | lv_projector/src/AWCast/cedarx_player_dlna.c:486-508 | stops and destroys the player unless already stopped |
| DlnaRenderer.Renderer.StartPlayer | lv_projector/src/AWCast/cedarx_player_dlna.c:262-283 | playing only with a handle and a successful start |
| DlnaRenderer.Renderer.PauseRender | lv_projector/src/AWCast/cedarx_player_dlna.c:531-547 | paused only with a handle, the duration fetched once, the progress bar shown with it and the position, and the position read's answer returned |
| DlnaRenderer.Renderer.Seek | lv_projector/src/AWCast/cedarx_player_dlna.c:560-567 | keeps the target and queues the seek |
| DlnaRenderer.Renderer.Position | lv_projector/src/AWCast/cedarx_player_dlna.c:569-583 | -1 while the advert is pending, else the player's position, or without a player the last one |
| DlnaRenderer.Renderer.Duration | lv_projector/src/AWCast/cedarx_player_dlna.c:585-603 | -1 while the advert is pending, else the kept duration, fetched once |
| DlnaRenderer.Renderer.OnNotice | lv_projector/src/AWCast/cedarx_player_dlna.c:100-165 | what each notice of the player changes and queues |
| DlnaRenderer.Renderer.HandleMessage | lv_projector/src/AWCast/cedarx_player_dlna.c:379-421 | what the message thread does for each message, the seek asked of a live player included |
| DlnaRenderer.Renderer.DestroyHandle | lv_projector/src/AWCast/cedarx_player_dlna.c:613-621 | the first part of destroy when nothing comes in between: a held player destroyed, the handle NULL; its steps are apart in the runs |
| DlnaSeek.PressAfterRun | lv_projector/src/AWCast/lv_pro_dlna_activity.c:36-80 | after any timed presses the jump is min(300000, 10000 times the burst length), the target is in range, in the pressed direction and clamped exactly |
| DlnaSeek.CounterIsBurst | lv_projector/src/AWCast/lv_pro_dlna_activity.c:53-60 | the static counter is ten seconds times the length of the current burst |
| DlnaSeek.JumpLawIff | lv_projector/src/AWCast/lv_pro_dlna_activity.c:53-65 | over any timed presses the jump law holds for every press if and only if no burst is longer than 214748 presses |
| DlnaSeek.BurstOfLength | lv_projector/src/AWCast/lv_pro_dlna_activity.c:53-56 | bursts of every length exist, so also ones that break the law |
| DlnaSeek.NoSeekDuringAdvert | lv_projector/src/AWCast/lv_pro_dlna_activity.c:45-51 | when both time reads meet the pending advert a press changes nothing and seeks nowhere |
| DlnaSeek.AdvertSeekIff | lv_projector/src/AWCast/lv_pro_dlna_activity.c:45-51 | with the two reads at two instants: a press whose first read meets the pending advert seeks nowhere if and only if the second one does too |
| DlnaSeek.LateAdvertStopsPress | lv_projector/src/AWCast/lv_pro_dlna_activity.c:45-51 | an advert set between the reads stops the press |
| DlnaSeek.SeekControl.SetSeek | lv_projector/src/AWCast/lv_pro_dlna_activity.c:36-80 | the handler, with its 32-bit casts, is the press function |
| WiredCast.EveryRunLawfulIff | lv_projector/src/USBCast/usbcast.c:132-295 | over every run: at every moment each service's calls are a prefix of (init start stop exit)*, the services never share the screen, and with the page gone the calls match one to one, if and only if no event of the run is a stray one |
| WiredCast.UnbrokenIsLawful | lv_projector/src/USBCast/usbcast.c:197-295 | the automaton used in the proofs accepts only traces of the quantified form |
| WiredCast.StepKeepsIff | lv_projector/src/USBCast/usbcast.c:60-99 | an event keeps the lifecycle if and only if it does not restart services behind a destroyed page, that is a STOP with no key flagged, or BACK on the cast screen, when some init works |
| WiredCast.StrayStopRestarts | lv_projector/src/USBCast/usbcast.c:172-195 | a STOP after the page is gone leaves services running with no page |
| WiredCast.LateStartHarmless | lv_projector/src/USBCast/usbcast.c:60-99 | a START after the page is gone changes no trace and keeps the lifecycle |
| WiredCast.LateStartThenBack | lv_projector/src/USBCast/lv_pro_usbcast_activity.c:22-39 | but BACK on the screen it shows leaves services running with no page |
| WiredCast.StartEvictsOnlyTheOther | lv_projector/src/USBCast/usbcast.c:132-170 | START stops the other service if it runs and never the one that started |
| WiredCast.StartThenStopRecovers | lv_projector/src/USBCast/usbcast.c:60-99 | START k, anything the other service reports, STOP k: listening again, exactly the re-initialised services running |
| WiredCast.StopRecoversIff | lv_projector/src/USBCast/lv_pro_usbcast_activity.c:11-39 | over every run START k, any further STARTs of k, STOPs of the other service and channel keys, STOP k: listening again if and only if no key was pressed since the last START k |
| WiredCast.PageRunsServices | lv_projector/src/WiredSP/lv_pro_wiredsp.c:127-128 | creating the page listens, and of both services exactly those run whose library initialises, each initialised and started once |
| WiredCast.PageEndsServices | lv_projector/src/WiredSP/lv_pro_wiredsp.c:132-139 | destroying it leaves no screen and no service; each that was up is stopped, unless it was, and exited |
| WiredCast.BackStartsOver | lv_projector/src/USBCast/lv_pro_usbcast_activity.c:22-39 | BACK hides the screen, ends what was up and runs the services that initialise again |
| WiredCast.UsbCast.InitServices | lv_projector/src/USBCast/usbcast.c:244-276 | init flags say which services initialised, stop flags cleared |
| WiredCast.UsbCast.StartServices | lv_projector/src/USBCast/usbcast.c:197-220 | starts exactly the initialised, unstopped services |
| WiredCast.UsbCast.StopServices | lv_projector/src/USBCast/usbcast.c:222-242 | stops exactly the running services and marks them |
| WiredCast.UsbCast.ExitServices | lv_projector/src/USBCast/usbcast.c:278-295 | exits exactly the initialised services |
| WiredCast.UsbCast.RemoveThread | lv_projector/src/USBCast/usbcast.c:132-155 | the eviction thread |
| WiredCast.UsbCast.ResetThread | lv_projector/src/USBCast/usbcast.c:172-180 | stop, exit, init, start |
| WiredCast.UsbCast.MirrorStarted | lv_projector/src/USBCast/usbcast.c:60-99 | a START event |
| WiredCast.UsbCast.MirrorStopped | lv_projector/src/USBCast/usbcast.c:60-99 | a STOP event, which resets unless a key was pressed or the other service is in use |
| WiredCast.UsbCast.KeyPressed | lv_projector/src/USBCast/lv_pro_usbcast_activity.c:22-39 | a key on the cast screen |
| WiredCast.UsbCast.OnCreate | lv_projector/src/WiredSP/lv_pro_wiredsp.c:122-130 | page creation |
| WiredCast.UsbCast.OnDestroy | lv_projector/src/WiredSP/lv_pro_wiredsp.c:132-139 | page destruction |
| CastHandles.EveryHandleOnceIff | lv_projector/src/AWCast/awcast.c:582-746 | over any run of init, eviction, exit and reset, failing inits included: at every moment each renderer and AWD made is held or was destroyed exactly once, if and only if no init meets a held handle |
| CastHandles.ExitLeavesNone | lv_projector/src/AWCast/awcast.c:679-746 | after any exit of such a run, however often repeated, every handle made was destroyed exactly once |
| CastHandles.PagesFindNone | lv_projector/src/WirelessSP/lv_pro_wirelesssp.c:227-252 | orders with an exit between an init or reset and the next init, repeated exits and late evictions included, never meet a held handle |
| CastHandles.InitKeepsIff | lv_projector/src/AWCast/awcast.c:638-671 | init loses no handle if and only if none is held when it is called |
| CastHandles.EvictionSparesDlna | lv_projector/src/AWCast/awcast.c:453-497 | eviction for DLNA touches neither handle, eviction of DLNA destroys both |
| CastHandles.InitHoldsIff | lv_projector/src/AWCast/awcast.c:582-671 | init makes and holds both handles exactly when the network is up and both constructors work; else neither, a lone renderer being destroyed again |
| CastHandles.ResetRenews | lv_projector/src/AWCast/awcast.c:514-522 | a reset destroys the old handles once and, if it works, holds new ones and listens |
| CastHandles.ExitEmpties | lv_projector/src/AWCast/awcast.c:679-746 | exit empties the structure; without one only init does anything |
| CastHandles.AwCast.InitCast | lv_projector/src/AWCast/awcast.c:582-671 | init with each way its two constructors can fail |
| CastHandles.AwCast.ExitCast | lv_projector/src/AWCast/awcast.c:679-746 | exit destroys what an unstopped init made |
| CastHandles.AwCast.RemoveThread | lv_projector/src/AWCast/awcast.c:453-497 | the eviction thread |
| CastHandles.AwCast.ResetThread | lv_projector/src/AWCast/awcast.c:514-522 | exit then init |
| WifiScan.KeptAreFirsts | lv_projector/src/Network/lv_pro_res_wifi.c:691-731 | the kept entries are exactly the first occurrences of each SSID, in order |
| WifiScan.ScanSound | lv_projector/src/Network/lv_pro_res_wifi.c:684-731 | the final list has one entry per SSID heard, the first heard, none missing, strongest first |
| WifiScan.ScanStore.TableInit | lv_projector/src/Network/lv_pro_res_wifi.c:560-565 | frees every slot of the side table |
| WifiScan.ScanStore.SsidExists | lv_projector/src/Network/lv_pro_res_wifi.c:567-575 | found if and only if an entry kept so far has the SSID |
| WifiScan.ScanStore.SsidAdd | lv_projector/src/Network/lv_pro_res_wifi.c:577-588 | the table takes one more kept entry in its next slot |
| WifiScan.ScanStore.Compact | lv_projector/src/Network/lv_pro_res_wifi.c:691-731 | compacting in place equals keep-first on the original contents, nothing unread is overwritten, and the table always equals the kept prefix |
| WifiScan.ScanStore.Scan | lv_projector/src/Network/lv_pro_res_wifi.c:691-731 | a scan leaves a descending permutation of the kept entries, or zero results on failure |
| Qsort.SortDescending | lv_projector/src/Network/lv_pro_res_wifi.c:684-689 | a descending permutation of the first n elements, the rest untouched |
| WifiLists.EachNetworkInOneList | lv_projector/src/Network/lv_pro_wifi_activity.c:804-985 | every non-blank SSID heard is in exactly one of the two lists, once in the scan list, and both lists are numbered 0, 1, 2 without gaps, though each list asks for the saved networks on its own |
| WifiLists.ConnectedIsRowZero | lv_projector/src/Network/lv_pro_wifi_activity.c:804-885 | a saved connected network is row 0, the only row shown connected, counted once, and the count never exceeds the rows |
| WifiLists.ConnectedFirst | lv_projector/src/Network/lv_pro_res_wifi.c:605-681 | after the sort only element 0 can be connected, and it carries the current SSID |
| WifiLists.ScanRowsTellTruth | lv_projector/src/Network/lv_pro_wifi_activity.c:964-985 | each scan row shows name and strength of the first entry heard, strongest first, none connected |
| WifiLists.PairRowsTellTruth | lv_projector/src/Network/lv_pro_wifi_activity.c:813-861 | each saved row shows the strength of the first entry heard; one not heard is the connected one, with strength 0 |
| WifiLists.IsSsidValid | lv_projector/src/Network/lv_pro_res_wifi.c:590-603 | true if and only if the SSID is blank |
| WifiLists.PairedDevices | lv_projector/src/Network/lv_pro_res_wifi.c:612-681 | a permutation of the saved networks with the first one of the current SSID marked, connected first |
| WifiLists.JoinScan | lv_projector/src/Network/lv_pro_wifi_activity.c:813-828 | each saved network gets signal strength and presence of its first scan result |
| WifiLists.BuildPairRows | lv_projector/src/Network/lv_pro_wifi_activity.c:831-861 | the rows of the saved list and its two counters |
| WifiLists.BuildScanRows | lv_projector/src/Network/lv_pro_wifi_activity.c:964-985 | the rows of the scan list |
| RadioPower.SafeAtEveryStep | lv_projector/src/Network/lv_pro_wifi_activity.c:1007-1078 | at every write of every run of boot and control threads, "on" implies the file says on, the two in-progress marks are never both set, and boot and control never overlap |
| RadioPower.PowerCutRestores | lv_projector/src/Network/lv_pro_wifi_activity.c:1679-1720 | after a power cut at any instant the next boot ends, and switches on exactly when the file says on and the hardware answers |
| RadioPower.MarkExact | lv_projector/src/Bluetooth/lv_pro_bt_activity.c:913-982 | over every run, for either radio, the "switching on" mark is set exactly while a thread switches on or a failed initialisation left it behind |
| RadioPower.RestRefusesOffIff | lv_projector/src/Network/lv_pro_wifi_activity.c:1021-1067 | after any run from power-up that ends at rest a switch-off is refused if and only if such a mark was left behind, for Bluetooth never |
| RadioPower.BootOutcome | lv_projector/src/Bluetooth/lv_pro_bt_activity.c:1535-1581 | boot from any point comes to its end and switches on exactly when its remaining tests succeed |
| RadioPower.OffRefusedIff | lv_projector/src/Network/lv_pro_wifi_activity.c:1021-1067 | after a switch-on at rest, a switch-off is refused if and only if the radio is Wi-Fi and its initialisation failed; otherwise it ends off, in the file too |
| RadioPower.OnOutcome | lv_projector/src/Bluetooth/lv_pro_bt_activity.c:928-956 | how a whole switch-on ends: file and flag agree, and only failed Wi-Fi initialisation keeps the mark |
| RadioPower.OffOutcome | lv_projector/src/Bluetooth/lv_pro_bt_activity.c:957-972 | how a whole switch-off ends: nothing at all under a mark, else off and clear |
| RadioUse.ToggleOutcome | lv_projector/src/Network/lv_pro_wifi_activity.c:1007-1078 | after any run from power-up at rest with a control thread waiting: that thread, run to its end, does as it was asked, and a switch-off is refused exactly under a mark left behind |
| RadioUse.FirstToggle | lv_projector/src/Bluetooth/lv_pro_bt_activity.c:913-982 | from power-up through boot, opening the page and a toggle: the page opens exactly when the modules loaded, and the radio ends as asked |
| RadioUse.PageToggles | lv_projector/src/Network/lv_pro_wifi_activity.c:1679-1746 | the same from any rest after boot; a closed page takes no toggle |
| RadioUse.BootRuns | lv_projector/src/Bluetooth/lv_pro_bt_activity.c:1535-1581 | what boot leaves: on exactly when the file said so and everything answers; a missing file is created |
| RadioUse.LibraryAsked | lv_projector/src/Network/lv_pro_wifi_activity.c:1021-1067 | which library calls a control thread makes, in order |
| RadioUse.SecondThreadLeaves | lv_projector/src/Network/lv_pro_wifi_activity.c:1012-1017 | a control thread that meets another leaves without a trace |
| RadioPower.RadioControl.SwitchOn | lv_projector/src/Network/lv_pro_wifi_activity.c:1007-1054 | the body ends as the step machine does, and no single write on the way is unsafe |
| RadioPower.RadioControl.SwitchOff | lv_projector/src/Network/lv_pro_wifi_activity.c:1054-1078 | the same for switching off |
| UiMessages.EveryPayloadOnce | lv_projector/src/Network/lv_pro_wifi_activity.c:347-378 | for either radio and over every run a payload given away once was freed exactly once or is still in a queued message, and nothing else is freed |
| UiMessages.PopFrees | lv_projector/src/Network/lv_pro_wifi_activity.c:767-778 | a payload is freed when the loop comes to its message, whatever the message does |
| UiMessages.ProcessBalances | lv_projector/src/Bluetooth/lv_pro_bt_activity.c:316-350 | of the two processors exactly the message's own one frees its payload, on every path |
| UiMessages.EnqueueBalances | lv_projector/src/Bluetooth/lv_pro_bt_common.c:138-160 | enqueue frees or queues the payload, never both |
| UiMessages.DrainEnds | lv_projector/src/Network/lv_pro_wifi_activity.c:337-378 | with no worker enqueuing, as many turns as the queue weighs empty it, follow-ups included |
| UiMessages.FollowUpsLighter | lv_projector/src/Network/lv_pro_wifi_activity.c:454-759 | what a handler enqueues weighs less than its message |
| UiMessages.WeightBound | lv_projector/src/Network/lv_pro_wifi_activity.c:337-378 | a message costs at most three turns |
| UiMessages.LeavingHandlesOnlyStops | lv_projector/src/Network/lv_pro_wifi_activity.c:337-345 | from leaving a page until it is created again only StopPairProc and one final UiDeinit take effect, whatever is enqueued |
| UiMessages.GoneHandlesNothing | lv_projector/src/Network/lv_pro_wifi_activity.c:1571-1627 | after UiDeinit nothing takes effect until the page is created again |
| UiMessages.LeavingEnds | lv_projector/src/Network/lv_pro_wifi_activity.c:1748-1773 | under every interleaving the page left is gone once the loop has turned once per message ahead of its UiDeinit and once more, and may then be initialised again |
| UiMessages.FinishKeeps | lv_projector/src/Network/lv_pro_wifi_activity.c:1770 | the second half of leaving puts that UiDeinit into the queue, behind whatever other threads posted since the first half |
| UiMessages.ReachableKeeps | lv_projector/src/Network/lv_pro_wifi_activity.c:1631-1661 | in every reachable state at most one UiDeinit of a page is queued, and only while the page is exiting |
| UiHandling.EverythingHandled | lv_projector/src/Network/lv_pro_wifi_activity.c:337-347 | over every run in which an open page is not left: what its queue held and what entered it is, in that order, what took effect and then what is still queued |
| UiHandling.TurnComes | lv_projector/src/Network/lv_pro_wifi_activity.c:337-378 | under every interleaving a message the page will not ignore has taken effect after one turn for each message ahead and one more |
| UiHandling.HandlersPost | lv_projector/src/Network/lv_pro_wifi_activity.c:454-759 | what each handler of an open Wi-Fi page leaves at the end of the queue |
| UiHandling.DisconnectRescans | lv_projector/src/Network/lv_pro_wifi_activity.c:454-759 | a disconnected or forgotten network is followed by a scan on every run that does not leave the page |
| UiHandling.CreatedPageWorks | lv_projector/src/Bluetooth/lv_pro_bt_activity.c:1635-1655 | a page created while its radio is on has its workers started, on every run that does not leave it |
| UiHandling.LeftPageStops | lv_projector/src/Network/lv_pro_wifi_activity.c:1748-1755 | a page left while its radio is on has its pairing worker stopped |
| UiHandling.SentOrDropped | lv_projector/src/Network/lv_pro_wifi_common.c:143-163 | a message is queued when its page exists or it is a connection notice, else dropped and its payload freed |
| UiHandling.PageInits | lv_projector/src/Network/lv_pro_wifi_activity.c:1631-1661 | a page is initialised only when boot is ready, and only once |
| UiHandling.PageCreates | lv_projector/src/Network/lv_pro_wifi_activity.c:1722-1746 | a page created is open and has posted just what it asks for |
| UiHandling.PageLeaves | lv_projector/src/Network/lv_pro_wifi_activity.c:1748-1755 | a page left is exiting and has posted just its stops |
| UiMessages.MessageLoop.MsgEnqueue | lv_projector/src/Network/lv_pro_wifi_common.c:143-163 | drop and free without a page, else append; notices always go through |
| UiMessages.MessageLoop.StopWifiScan | lv_projector/src/Network/lv_pro_wifi_activity.c:190-203 | posts one message, only with a running timer |
| UiMessages.MessageLoop.RunHandler | lv_projector/src/Network/lv_pro_wifi_activity.c:454-759 | the switch over message types, as far as it posts messages or ends the page |
| UiMessages.MessageLoop.MessageProcess | lv_projector/src/Network/lv_pro_wifi_activity.c:347-778 | one page's processor |
| UiMessages.MessageLoop.SystemMessageProcess | lv_projector/src/Common/message/sys_msg.c:105-124 | one turn of the loop: pop and show to both processors |
| UiMessages.MessageLoop.PageInit | lv_projector/src/Network/lv_pro_wifi_activity.c:1631-1661 | succeeds if and only if no flag of the page is left and boot is ready |
| UiMessages.MessageLoop.PageCreate | lv_projector/src/Network/lv_pro_wifi_activity.c:1722-1746 | activates the page and posts the workers it asks for, in order |
| UiMessages.MessageLoop.PageLeave | lv_projector/src/Network/lv_pro_wifi_activity.c:1748-1755 | marks the page and posts the worker stops in order, up to the wait for the control worker |
| UiMessages.MessageLoop.PageLeft | lv_projector/src/Network/lv_pro_wifi_activity.c:1770 | posts UiDeinit after the wait |
| HexText.HexShape | lv_projector/src/Network/lv_pro_wifi_common.c:484-494 | the hexadecimal form doubles the length and is hexadecimal only |
| HexText.HexMatchIff | lv_projector/src/Network/lv_pro_wifi_common.c:550-554 | a text passes the hexadecimal comparison if and only if it decodes to the SSID, in either case of digits |
| HexText.HexInjective | lv_projector/src/Network/lv_pro_wifi_common.c:484-494 | decoding undoes encoding, so distinct SSIDs have distinct forms |
| HexText.Utf8ToHex | lv_projector/src/Network/lv_pro_wifi_common.c:484-494 | writes the form of as much as fits, inside the buffer and terminated; an empty SSID leaves the buffer alone |
| HexText.IsHexString | lv_projector/src/Network/lv_pro_wifi_common.c:496-502 | true if and only if every character is a hexadecimal digit |
| WpaConf.GetDev | lv_projector/src/Network/lv_pro_wifi_common.c:504-590 | the line loop is the lookup function on the file's text, or nothing found without a file |
| WpaConf.HasSsid | lv_projector/src/Network/lv_pro_wifi_common.c:524-555 | the comparison of one SSID line |
| WpaLookup.TextScan | lv_projector/src/Network/lv_pro_wifi_common.c:520-523 | reading through the 256-byte line buffer sees exactly the lines that fit it |
| WpaLookup.SsidValue | lv_projector/src/Network/lv_pro_wifi_common.c:524-555 | the text comparison decides exactly whether the block is taken for the SSID: hexadecimal as it decodes, quoted as it is cut at a blank or '#' |
| WpaFile.ReadAsIff | lv_projector/src/Network/lv_pro_wifi_common.c:533-548 | a quoted SSID is found as itself if and only if it holds no blank and no '#' |
| WpaFile.UpToQuoteIff | lv_projector/src/Network/lv_pro_wifi_common.c:557-566 | a passphrase is read whole if and only if it holds no quote |
| WpaLookup.QuotedStep | lv_projector/src/Network/lv_pro_wifi_common.c:523-585 | what one quoted line does, for any text between the quotes: compared if it contains "ssid=", then read for every keyword it contains |
| WpaLookup.LookupExact | lv_projector/src/Network/lv_pro_wifi_common.c:504-590 | on every well-formed file, whatever its SSIDs and passphrases hold, what the lookup returns, for any contents of the caller's buffers and of the protocol buffer at each line |
| WpaLookup.LookupRightIff | lv_projector/src/Network/lv_pro_wifi_common.c:504-590 | it returns the first block's passphrase and key management, or not found, for all buffer contents, if and only if the block the code takes gives just that: no "key_mgmt=" in its quoted texts, its passphrase unquoted inside, no earlier block mistaken for it, and "proto=" only where harmless |
| WpaLookup.OrdinaryFilesRight | lv_projector/src/Network/lv_pro_wifi_common.c:504-590 | so it is right on files whose quoted texts hold no keyword, no quote in passphrases, and no blank or '#' in SSIDs |
| WpaLookup.TrickySsid | lv_projector/src/Network/lv_pro_wifi_common.c:581-585 | every network whose name contains "key_mgmt=" is looked up wrongly |
| WpaLookup.TrickySsidResult | lv_projector/src/Network/lv_pro_wifi_common.c:581-585 | if that name holds no blank, no '#' and no "psk=", and the protocol buffer was empty, both results come back as the buffers held them |
| WpaLookup.TrickyPassphrase | lv_projector/src/Network/lv_pro_wifi_common.c:557-585 | every network whose passphrase contains "key_mgmt=" or a quote is looked up wrongly |
| WpaLookup.TrickyPassphraseResult | lv_projector/src/Network/lv_pro_wifi_common.c:581-585 | a passphrase with "key_mgmt=", under a name without blank, '#', "key_mgmt=" and "proto=" and with an empty protocol buffer, comes back up to its first quote, the key management as the buffer held it |
| WpaLookup.TrickyNeighbour | lv_projector/src/Network/lv_pro_wifi_common.c:524-548 | an earlier network whose passphrase is the SSID looked up, and contains "ssid=", is returned in its place |
| WpaLookup.TrickyTexts | lv_projector/src/Network/lv_pro_wifi_common.c:524-585 | such names and passphrases exist |
| BtScan.AnnouncedOnce | lv_projector/src/Bluetooth/lv_pro_bt_activity.c:862-898 | over every interleaving of discoveries and walks the page was told of a prefix of the list, each device once, with its index as row and distinct addresses |
| BtScan.CompletePassCatchesUp | lv_projector/src/Bluetooth/lv_pro_bt_activity.c:862-898 | after a walk through the whole list every device in it has been announced, and earlier announcements stand |
| BtScan.WalkAnnounces | lv_projector/src/Bluetooth/lv_pro_bt_activity.c:875-896 | one walk announces exactly the devices from the last announcement to where it stops |
| BtScan.FoundIsAnnounced | lv_projector/src/Bluetooth/lv_pro_bt_activity.c:862-898 | whatever is found, at whatever moment of any run, is announced after a complete walk at the end |
| BtScan.FoundJoins | lv_projector/src/Bluetooth/lv_pro_res_bt.c:145-162 | a device found is in the list, under the name of its first discovery |
| BtScan.Scanner.DevAdd | lv_projector/src/Bluetooth/lv_pro_res_bt.c:145-162 | appends a device if and only if its address is new |
| BtScan.Scanner.ScanPass | lv_projector/src/Bluetooth/lv_pro_bt_activity.c:867-898 | one turn of the scan thread |
| BtConnFile.RoundTripIff | lv_projector/src/Bluetooth/lv_pro_bt_common.c:435-519 | reading back what was written returns flag, address and name, or placeholders, if and only if they fit the line buffer and the caller's buffers |
| BtConnFile.WrittenRead | lv_projector/src/Bluetooth/lv_pro_bt_common.c:488-515 | what is read back of values of any length: a long address spills into the name |
| BtConnFile.ShortFiles | lv_projector/src/Bluetooth/lv_pro_bt_common.c:488-515 | files with lines missing: their buffers are left alone, and an empty file reads as -1 |
| BtConnFile.SourceBuffers | lv_projector/src/Bluetooth/lv_pro_bt_activity.c:1588-1590 | a 17-character address and a name of up to 127 come back through the caller's 18- and 256-byte buffers |
| BtConnFile.ConnFile.Update | lv_projector/src/Bluetooth/lv_pro_bt_common.c:435-462 | the three lines written |
| BtConnFile.ConnFile.Get | lv_projector/src/Bluetooth/lv_pro_bt_common.c:464-519 | creates a missing file and leaves the buffers alone, else reads three lines |
| NoSignalBox.StaysInside | lv_projector/src/Source/lv_pro_source.c:129-166 | a coordinate stays in range on every tick |
| NoSignalBox.TurnsExactlyAtEdge | lv_projector/src/Source/lv_pro_source.c:135-156 | the direction changes if and only if the tick ends at the edge ahead, that is if at most one step was left |
| NoSignalBox.StraightRun | lv_projector/src/Source/lv_pro_source.c:135-156 | until the turn the coordinate moves a full step every tick |
| NoSignalBox.EdgeInTime | lv_projector/src/Source/lv_pro_source.c:135-156 | the edge ahead is reached, and the direction turned, at a computed tick within ceil(limit / step) and not before |
| NoSignalBox.PeriodExact | lv_projector/src/Source/lv_pro_source.c:135-156 | from 0 the motion first returns after exactly 2 ceil(limit / step) ticks |
| NoSignalBox.Periodic | lv_projector/src/Source/lv_pro_source.c:135-156 | the motion repeats with that period for ever |
| NoSignalBox.SignalsOnlyPause | lv_projector/src/Source/lv_pro_source.c:129-165 | the place depends only on the number of ticks without a signal |
| NoSignalBox.RoomOnScreen | lv_projector/src/Source/lv_pro_source.c:135-156 | how much of the screen the room takes, to the rounding, and that there is room downwards exactly from 120 lines on |
| NoSignalBox.Box.Timer | lv_projector/src/Source/lv_pro_source.c:129-166 | the timer moves both coordinates by the tick function, or hides the box |
| Keystone.IconsTellTheTruth | lv_projector/src/Setting/lv_keystone_page.c:213-253 | over every key sequence from zeros coordinates stay even and in range, and an arrow is hidden if and only if its key would go below 0 |
| Keystone.IconWrongIff | lv_projector/src/Setting/lv_keystone_page.c:213-253 | from stored values of any parity an icon is wrong if and only if an outward coordinate is 1 |
| Keystone.OneCoordinateMoves | lv_projector/src/Setting/lv_keystone_page.c:155-211 | a key moves one coordinate of the selected corner to its target if and only if that is in range, and nothing else |
| Keystone.OppositeUndoes | lv_projector/src/Setting/lv_keystone_page.c:286-314 | the opposite key undoes every move |
| Keystone.ArrowPointsTheWay | lv_projector/src/Setting/lv_keystone_page.c:286-314 | on the screen the selected corner moves the way the arrow points, by two or not at all |
| Keystone.EnterGoesRound | lv_projector/src/Setting/lv_keystone_page.c:255-285 | ENTER goes round the four corners clockwise |
| Keystone.ResetPutsBack | lv_projector/src/Setting/lv_keystone_page.c:57-76 | a reset after any keys hides exactly the outward arrows and keeps the selection |
| Keystone.KeystonePage.UpdatePos | lv_projector/src/Setting/lv_keystone_page.c:155-211 | adds to one coordinate of the selected corner unless that leaves the range |
| Keystone.KeystonePage.DisplayIcons | lv_projector/src/Setting/lv_keystone_page.c:213-253 | hides exactly the icons the specification hides |
| Keystone.KeystonePage.ItemEvent | lv_projector/src/Setting/lv_keystone_page.c:255-316 | ENTER and arrow keys, with the icons right afterwards |
| Keystone.KeystonePage.ResetPos | lv_projector/src/Setting/lv_keystone_page.c:57-76 | all four corners back to zero |

## Left out

- LVGL widgets, styles, layout and focus; vendor player, mirroring, Wi-Fi and Bluetooth libraries: only their answers appear, as parameters.
- The page manager: pages alternate create and destroy.
- In the DLNA renderer a prepare with the copying of the URL, and the bodies of start, pause and resume, are one step each; the library's own threads are not modelled.
- Library calls other than create and destroy into a player that destroy has just destroyed.
- DlnaRenderer.Renderer.PauseRender: the library calls it makes with a NULL handle appear only as their answers.
- Each thread that the wired or the wireless cast module starts for an eviction or a reset finishes before the next event; resets delayed past page destroy are not modelled.
- The wireless cast module's Miracast and AirPlay services: only the two DLNA handles are modelled, and an init whose renderer fails leaves no structure for later operations.
- Real clocks, sockets, file write errors, failed memory allocation, and thread arguments passed to the connection workers.
- Connection and pairing workers of the two pages: what they enqueue is any message at any time; that a worker ends is assumed where the UI thread waits for it.
- Messages other than the ones that post follow-ups or end a page are one kind, `Display`.
- Messages for the Miracast and AirPlay pages and for other modules are `Foreign`, without payload.
- Removal of a Bluetooth device during a scan; the library list is taken to append at its end.
- qsort is modelled by an insertion sort whose contract leaves the order of equal keys open.
- The exits by which the list-building loops stop when the page closes; scan results that change while the lists are built; lists longer than the row arrays.
- SSIDs longer than 32 octets in the scan, and of saved networks longer than their buffers.
- NUL characters inside files; file texts are NUL-free.
- The header's other tables, key maps, UUIDs, version parsing and channel tables.
- WpaLookup.LookupExact: speaks of files whose blocks list the passphrase before the key management line, whose lines fit 254 characters, and whose unquoted words hold no '=', because that is the form wpa_supplicant writes; SSIDs longer than 255 octets do not fit the hexadecimal buffer.
- DlnaSeek.PressAfterRun: speaks of bursts of at most 214748 presses, because beyond that the counter wraps, as `DlnaSeek.JumpLawIff` shows.
- NoSignalBox.Box.Timer: needs a screen large enough to leave the box room, because the source's limit is negative otherwise.
