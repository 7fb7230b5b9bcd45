# VRX controller — a verified model

`vrx_controller.py` runs on a Raspberry Pi and drives four analogue video
receivers:

- VRX1, a 5.8 GHz RX5808-style module tuned over SPI;
- VRX2 and VRX3, 1.2 and 1.5 GHz modules tuned by emulated button presses;
- VRX4, a 3.3 GHz module tuned through six parallel address lines.

Three local buttons and text commands from an ESP32 drive it. The commands
arrive on a serial link, and the controller answers on that link with status
lines and RSSI requests.

The project is a Dafny model of that controller:

- `catalog.dfy` (`Catalog`) holds the static channel catalog: the 96, 13, 12
  and 64 channel lists, the VRX4 address tuples, the VRX4 address pins and VRX2/VRX3 control pins, and `get_channel_freq`.
- `hardware.dfy` (`Hardware`) records hardware effects as a trace: SPI frames,
  address-line levels, button pulses and power switches. It also gives the set
  of powered receivers a trace leaves behind.
- `tuning.dfy` (`Tuning`) derives the VRX1 SPI frame from a frequency, and the
  six VRX4 line levels from a catalog entry. It also gives what re-applying or
  stepping a channel drives.
- `indexing.dfy` (`Indexing`) holds the channel step with wrap-around, the
  receiver cursor, and the clamp of a stored index.
- `text.dfy` (`Text`) holds decimal text and Python's `str.split`. It also
  holds the status line `VRX:<id>:<index>:<freq>:<rssi>\n` and the remote
  command forms.
- `search.dfy` (`Search`) holds the autosearch selection rule: the first
  strictly greatest RSSI, starting from best 0 on channel 0.
- `buttons.dfy` (`Buttons`) holds the edge detection of the polling loop,
  as a pure fold over its passes.
- `controller.dfy` (`Controller`) holds the session as a class:
  - The module-level globals become the class's fields `current`, `active`,
    `screen`, `channels`, `rssi` and `searching`.
  - Two output traces are added: `hw` for hardware effects and `sent` for
    lines written to the link.
  - Each function of the source that changes them becomes a method:
    `change_channel`, `change_vrx`, `autosearch`, `send_state_to_esp32`, the
    command dispatch of `handle_esp32_commands`, the button logic of `main`,
    and its `finally` block.

Every event method keeps the session invariant `Valid`:

- every stored channel is an index into its receiver's list;
- no receiver is active on the selection screen;
- the active receiver is the current one;
- the powered receivers, as read off the trace, are exactly the active one;
- no sweep is running.

Each event method also states its whole effect, as a two-state predicate over
the old and new fields.

RSSI replies and command lines are inputs. A failed or missing reply is
`None`, and it reads as 0. Press durations are integer milliseconds.

The code does no more than the following, and the model follows it:

- RSSI is used raw, as the link returns it, with no filter or calibration.
- The VRX4 address fields are written most significant bit first, on the
  fixed pins of the configuration.
- Each receiver has a flat channel list, with no band index.
- Autosearch has no acceptance threshold, no cancellation and no restore
  on failure.

## Model

| member | source | states |
|---|---|---|
| Catalog.IdName | vrx_controller.py:85-156 | each receiver's key is a four-character name starting with `VRX` |
| Catalog.ParseId | vrx_controller.py:476 | a name is a known receiver exactly when it is one of the four keys, and then it names that receiver |
| Catalog.IndexOf | vrx_controller.py:514-515 | the position of a receiver in the declaration order of the configuration |
| Catalog.ChannelCount | vrx_controller.py:85-156 | every receiver has at least one channel |
| Catalog.TableLengths | vrx_controller.py:85-156 | the channel lists hold 96, 13, 12 and 64 entries |
| Catalog.ChannelFreq | vrx_controller.py:188-195 | the frequency of a channel is the list entry for VRX1, VRX2 and VRX3 and the first component of the address tuple for VRX4, and it lies in the receiver's band |
| Catalog.Vrx1InBand | vrx_controller.py:90-103 | every VRX1 frequency lies in 4858..6060 MHz |
| Catalog.CatalogInBand | vrx_controller.py:85-156 | every catalog frequency lies in its receiver's band |
| Catalog.Vrx4TableAddressing | vrx_controller.py:129-154 | VRX4 entry i carries cs_bits = i % 8 and s_bits = i / 8, both below 8, and a frequency in 3060..3500 MHz |
| Hardware.PoweredIsLastWrite | vrx_controller.py:223-226 | a receiver is powered exactly when its last power write switched it on |
| Hardware.PoweredAfterPower | vrx_controller.py:223-226 | one power write adds or removes exactly that receiver from the powered set |
| Hardware.PoweredAfterQuiet | vrx_controller.py:234-262 | tuning writes (SPI, address lines, pulses) leave the powered set unchanged |
| Tuning.Vrx1Word | vrx_controller.py:238 | N is the frequency's offset above 479 MHz, halved and rounded down |
| Tuning.Vrx1Frame | vrx_controller.py:239-245 | the frame sent to VRX1 is four bytes |
| Tuning.Vrx1FrameFields | vrx_controller.py:239-243 | every byte is below 256; byte 0 has bit 0 set and bits 1-2 clear; byte 1 has its low 2 bits clear; byte 2 is at most 3; byte 3 is 0; the fields read back as N mod 8192 |
| Tuning.WordSplit | vrx_controller.py:239-241 | the three bit fields of the frame recompose the low 13 bits of N |
| Tuning.Vrx1FrameAt5800 | vrx_controller.py:238-245 | at 5800 MHz, N = 2660 and the frame is 21 4C 01 00 |
| Tuning.CatalogFrameExact | vrx_controller.py:238-243 | every VRX1 catalog frequency is at least 479, its N is below 8192, and its frame reads back as its whole N |
| Tuning.FieldLevels | vrx_controller.py:256-258 | three 0/1 levels, most significant first, that recompose the field modulo 8 |
| Tuning.FieldBits | vrx_controller.py:256-258 | bits 2, 1 and 0 of a number are 0 or 1 and recompose its remainder modulo 8 |
| Tuning.AddressWrites | vrx_controller.py:249-262 | six 0/1 line writes: the CS pins 5, 6, 12 carry cs_bits and the S pins 13, 16, 17 carry s_bits, most significant first |
| Tuning.Vrx4Writes | vrx_controller.py:249-262 | for VRX4 channel i, the levels read back as i % 8 on the CS lines and i / 8 on the S lines |
| Tuning.ApplyWrites | vrx_controller.py:265-272 | re-applying a channel sends the frame of its frequency on VRX1, the address writes on VRX4, nothing on VRX2 and VRX3, and never switches power |
| Tuning.StepWrites | vrx_controller.py:389-396 | a step retunes VRX1 or VRX4 to the new channel and pulses the up or down pin of VRX2 or VRX3, with no power switch |
| Tuning.Vrx1Tunable | vrx_controller.py:90-103 | every VRX1 frequency can be turned into a frame |
| Tuning.SweepFrames | vrx_controller.py:416-417 | a sweep over k channels sends k frames and switches no power |
| Tuning.SweepFramesStep | vrx_controller.py:416-417 | one more channel of a sweep appends that channel's frame |
| Indexing.StepIndex | vrx_controller.py:384-387 | a step lands in [0, n); from an in-range channel, up goes to the next channel and down to the previous, wrapping at the ends |
| Indexing.StepInverse | vrx_controller.py:384-387 | a step down undoes a step up and vice versa |
| Indexing.StepsUpModulo | vrx_controller.py:384-385 | k steps up from c land on (c + k) mod n; n steps come back to c |
| Indexing.DivModUnique | vrx_controller.py:384-387 | Python's modulo with a positive divisor is fixed by any quotient and remainder in range |
| Indexing.CursorStep | vrx_controller.py:512-521 | the cursor always moves to another receiver, to the next or previous position in declaration order, wrapping |
| Indexing.CursorCycle | vrx_controller.py:512-521 | up visits VRX1, VRX2, VRX3, VRX4 and back to VRX1; down undoes up |
| Indexing.Clamp | vrx_controller.py:453-456 | the clamp lands in [0, n); it keeps in-range indices, caps large ones at n - 1 and lifts negative ones to 0 |
| Indexing.ClampIdempotentNearest | vrx_controller.py:327-330 | clamping twice is clamping once, and the clamp picks the in-range index nearest the input |
| Text.NatToDecimal | vrx_controller.py:458 | a number is written as at least one digit, without a leading zero |
| Text.IntToDecimal | vrx_controller.py:458 | an integer field is non-empty and holds neither `:` nor a newline |
| Text.NatDecimalRoundTrip | vrx_controller.py:458 | a written number reads back as itself |
| Text.IntDecimalRoundTrip | vrx_controller.py:458 | a written integer, negative ones included, reads back as itself |
| Text.Split | vrx_controller.py:475 | `str.split` always gives at least one piece |
| Text.SplitNoSeparator | vrx_controller.py:475 | a string without the separator splits into itself |
| Text.SplitAtFirst | vrx_controller.py:475 | splitting stops at the first separator |
| Text.SplitJoin | vrx_controller.py:475 | splitting undoes joining when no piece holds the separator |
| Text.StatusLine | vrx_controller.py:458 | the status line is `VRX:`, the id, the index, the frequency and the RSSI, separated by `:`, followed by a newline |
| Text.StatusRoundTrip | vrx_controller.py:458 | every status line parses back to exactly the receiver, index, frequency and RSSI it reports |
| Text.CommandRoundTrip | vrx_controller.py:474-496 | each command line is read as its own command; `SELECT_<id>_<more>` is read as `SELECT_<id>` |
| Search.ReplyValue | vrx_controller.py:420-430 | a reading is the reply when one arrived and parsed, and 0 when it was empty, unparsable or missing |
| Search.SweepValues | vrx_controller.py:416-431 | one reading per channel; without a link every reading is the RSSI left from before the sweep |
| Search.BestOf | vrx_controller.py:412-435 | the best channel of a non-empty sweep is one of its channels |
| Search.BestIsFirstMaximum | vrx_controller.py:412-435 | the sweep ends on the first channel holding the greatest reading when that is positive, and on channel 0 with best 0 otherwise |
| Search.BestIsUnique | vrx_controller.py:431-435 | the selection rule has exactly one answer |
| Search.BestMonotone | vrx_controller.py:431-435 | each reading only raises the best, and moves it to that channel exactly when it is strictly greater |
| Search.NoSignalGivesChannelZero | vrx_controller.py:412-413 | with no positive reading, the search ends on channel 0 |
| Buttons.Step | vrx_controller.py:579-619 | a pass records the levels; SELECT going down stamps the time and going up yields its press duration; UP and DOWN yield an event only going down |
| Buttons.SteadyLevelsAreQuiet | vrx_controller.py:580-612 | passes that read unchanged levels yield nothing and change nothing |
| Buttons.PressAndRelease | vrx_controller.py:580-584 | a SELECT press at t0 released at t1 yields one release lasting t1 - t0 |
| Buttons.HeldUpPressesOnce | vrx_controller.py:603-610 | holding UP (SELECT and DOWN released) over any number of passes from the start yields exactly one press, and the detector ends with UP seen down |
| Controller.ActiveSet | vrx_controller.py:481-483 | the power invariant's vocabulary: the receivers that should be powered are {active} when a receiver is active and none otherwise |
| Controller.StatusReport | vrx_controller.py:446-461 | a status line is sent exactly when there is a link |
| Controller.StatusReportParses | vrx_controller.py:446-461 | the status line sent reads back as the receiver, its channel, its frequency and the RSSI |
| Controller.Queries | vrx_controller.py:420-422 | a sweep over k channels writes k RSSI requests `GET_RSSI` |
| Controller.ClampKeepsChannels | vrx_controller.py:453-456 | the clamp before the status report, applied to in-range channels, changes no stored channel |
| Controller.ResetKeepsInRange | vrx_controller.py:229-230 | resetting a stored channel to 0 keeps every stored channel in range |
| Controller.PowerOffAll | vrx_controller.py:626-629 | the shutdown writes switch off each receiver in declaration order |
| Controller.ResetAll | vrx_controller.py:626-629 | resetting every receiver in turn leaves every stored channel at 0 |
| Controller.AllOff | vrx_controller.py:626-629 | after the shutdown writes no receiver is powered, whatever came before |
| Controller.SearchKeepsPower | vrx_controller.py:416-440 | a sweep and the final tune switch no receiver's power |
| Controller.VrxController.constructor | vrx_controller.py:163-175 | the initial state: VRX1 under the cursor, nothing active, selection screen, every channel 0, RSSI 0, nothing powered |
| Controller.VrxController.SetPower | vrx_controller.py:223-226 | one power write to the trace |
| Controller.VrxController.ResetChannel | vrx_controller.py:229-230 | the receiver's stored channel becomes 0, the others unchanged |
| Controller.VrxController.SetFrequencyVrx1 | vrx_controller.py:234-246 | one SPI frame for the frequency |
| Controller.VrxController.SetFrequencyVrx4 | vrx_controller.py:249-262 | the six address writes of the channel |
| Controller.VrxController.PressButton | vrx_controller.py:375-378 | one pulse on the pin |
| Controller.VrxController.ApplyCurrentChannel | vrx_controller.py:265-272 | the current receiver's stored channel is driven as ApplyWrites says, and the powered set is unchanged |
| Controller.VrxController.SendState | vrx_controller.py:446-461 | a status line for the current receiver's clamped channel, its frequency and the RSSI, only when linked |
| Controller.VrxController.DriveStep | vrx_controller.py:389-396 | the step's writes, as StepWrites says, with the powered set unchanged |
| Controller.VrxController.ChangeChannel | vrx_controller.py:380-403 | only the current receiver's channel changes, by one wrapped step; the step is driven and reported; channels stay in range; power is unchanged |
| Controller.VrxController.ChangeVrx | vrx_controller.py:512-521 | the cursor moves one receiver along declaration order; nothing else changes |
| Controller.VrxController.SweepStep | vrx_controller.py:416-435 | one channel tuned, stored, queried and read, and the running best updated by the selection rule |
| Controller.VrxController.Sweep | vrx_controller.py:416-435 | the loop tunes every channel in order, sends one request per channel when linked, ends with the last channel stored, and returns the selection rule's best |
| Controller.VrxController.SearchOver | vrx_controller.py:409-441 | after the sweep the search flag is clear, VRX1 is tuned to the best channel, only VRX1's stored channel changes, and power is unchanged |
| Controller.VrxController.Autosearch | vrx_controller.py:405-443 | nothing unless the current receiver is VRX1; otherwise the full sweep over VRX1's list, then the best channel tuned and stored; channels stay in range and power is unchanged |
| Controller.VrxController.PowerOffActive | vrx_controller.py:477-479 | the active receiver, if any, is switched off and its channel reset; nothing is powered afterwards |
| Controller.VrxController.SwitchOn | vrx_controller.py:589-592 | the current receiver is switched on and tuned to its stored channel, and becomes the only powered one on the tuning screen |
| Controller.VrxController.Select | vrx_controller.py:474-486 | `SELECT_<id>`: the previous receiver off and reset, id on, tuned and reported, on the tuning screen; the invariant is kept |
| Controller.VrxController.Deactivate | vrx_controller.py:497-502 | back to the selection screen with the active receiver off and reset; the invariant is kept |
| Controller.VrxController.EnterMain | vrx_controller.py:503-504 | `MENU` off the tuning screen enters it without powering or tuning anything |
| Controller.VrxController.HandleCommand | vrx_controller.py:474-505 | each command form does what Commanded says (unknown ids and lines ignored, channel commands only on the tuning screen, search only there on VRX1); the invariant is kept |
| Controller.VrxController.ServeCommands | vrx_controller.py:465-509 | without a link nothing changes and no command is read; with one, the commands read are exactly the parsed lines, in order, and the invariant is kept (each command's effect is HandleCommand's contract) |
| Controller.VrxController.OnSelectRelease | vrx_controller.py:584-600 | over 2000 ms on VRX1's tuning screen: search; over 100 ms: switch on from the selection screen or go back to it; otherwise nothing |
| Controller.VrxController.OnStepPress | vrx_controller.py:602-619 | UP/DOWN move the cursor on the selection screen and step the channel on the tuning screen |
| Controller.VrxController.HandleButton | vrx_controller.py:579-619 | each button event does what Reacted says; the invariant is kept |
| Controller.VrxController.PollButtons | vrx_controller.py:575-620 | the loop's edge detector ends where the fold over its passes ends and yields the same events; the invariant is kept |
| Controller.VrxController.Shutdown | vrx_controller.py:626-629 | every receiver switched off in declaration order; nothing is powered and every stored channel is 0 |

## Left out

- Display hardware and rendering: the ILI9341/SSD1306 set-up, `show_vrx_selection`, `show_main_screen`, `update_i2c_display` and `update_display`. They are pixel and font work. The one piece of logic in them, the clamp of the stored index in `show_main_screen`, is `Indexing.Clamp`; `Controller.ClampKeepsChannels` shows it changes nothing while the invariant holds, so the refresh calls are omitted.
- Serial port probing (`setup_uart`) and real serial I/O. Command lines and RSSI replies are inputs; lines written to the port are the `sent` trace. The decode-and-strip of a received line is assumed done: `HandleCommand` receives the stripped text.
- GPIO set-up and `GPIO.cleanup()`, since they are library calls. The constructor starts from the state `setup_gpio` leaves: every power pin high, so nothing is powered. Chip-select toggling around an SPI transfer is folded into one `Spi` event. Active-low power pins become `Power(id, on)` events that name the receiver, so the power pin numbers (18, 15, 14, 4) and VRX1's chip-select pin (7) are not part of the model.
- `time.sleep`, settle delays and the pulse length of `press_button`. There is no timing logic to verify. Press durations are integer milliseconds, with thresholds 100 and 2000.
- The command thread runs concurrently with the polling loop, without a lock. The model treats each command and each button event as an atomic step of one sequential state machine, so interleavings inside a step are not modelled.
- Exception handlers, logging and `print`. A failing RSSI read is an input reading 0. No other modelled operation raises on the inputs the invariant allows.
- Tuning.Vrx1Word: requires a frequency of at least 479 MHz instead of modelling `int()`'s truncation toward zero below it. Every catalog frequency meets this (`Tuning.CatalogFrameExact`).
- Controller.VrxController.SendState: computes the clamped index for the message, but does not write the clamp back into the stored channels. Its precondition (the current channel in range) makes the write-back a no-op (`Controller.ClampKeepsChannels`).
- Controller.VrxController.ServeCommands: states the parsed command sequence and the invariant, not the composed effect of all commands. Each command's full effect is `HandleCommand`'s contract.
- Controller.VrxController.PollButtons: states the detector and events of the polling loop and the invariant, not the composed effect of all events. Each event's full effect is `HandleButton`'s contract.
- The loop of `handle_esp32_commands` polls `in_waiting` forever, and `main`'s loop runs until interrupted. `ServeCommands` and `PollButtons` run over a finite sequence of inputs instead.
