# Stage driver firmware: a verified model

This project models the firmware core of a motorised stage driver in Dafny.
The driver has two units, each built on a Raspberry Pi Pico.

**The controller** drives up to four axes. An axis is either a TMC5160 stepper driver chip or a
simulated axis with the same interface. The controller has these parts:

- **Parameters**: it keeps the device, axis, motor and remote parameter tables, and stores them
  in flash behind a version word.
- **TMC**: for each axis it configures the driver chip and runs motion commands: move to a
  position, move at a velocity, home, and read the status and error registers.
- **Motors**: it coordinates the four axes and corrects each axis's position from its encoder
  in closed loop.
- **SerialComm**: it answers the host's text commands on USB serial. A command is recognised by
  its prefix, each setting or query is looked up in an ID list, and errors are latched and then
  reported.
- **RemoteComm**: it talks to the remote unit over a UART. Each message travels as a frame
  `<payload|checksum>`, where the checksum is the 8-bit wrapping sum of the payload's
  characters. Through these frames the controller hands channels over to the remote unit and
  takes back the velocities and positions the remote reports.

**The remote unit** reads the operator's inputs and answers the controller over the same frames:

- two joystick axes, each with an ADC moving-average filter and a dead band around its
  calibrated centre;
- four quadrature encoders, each with a button;
- a sensitivity knob, which scales both the joystick velocities and the encoder steps.

ControllerComm requests access to a channel and applies the controller's commands (POS, ENAB,
JMAX, JDIR, ESTP, EDIR). It reports changed velocities and positions and switches a channel
between joystick and encoder input when one of that channel's buttons is pressed. The remote
unit has its own copies of validateChecksum and calculateChecksum (ControllerComm.cpp:292-326).
This model shares one definition of each with the controller, in module `Frame`.

The model is organised as follows:

- Code that computes values becomes pure functions with lemmas:
  - `Text`: sscanf/sprintf-style scanning and rendering;
  - `Frame`: framing;
  - `SerialDispatch`: decoding and answering host commands;
  - `AxisDriver` and `Orchestrator`: per-axis and per-board motion.
- Code that updates state in place becomes classes whose methods are proved equal to those
  functions of their old state:
  - `Motion.TMC`, `Motion.Motors`, `ParameterStore.Parameters`, `RemoteRelay.RemoteComm` and
    `HostLink.SerialComm` on the controller;
  - `MovingAverageFilter.MovingAverage`, `JoystickInput.JoystickAxis` and
    `JoystickInput.Joystick`, `EncoderInput.Encoders`, `SensAdjustInput.SensAdjust`,
    `PositionDisplay.Display` and `ControllerLink.ControllerComm` on the remote unit.
- Hardware inputs are parameters:
  - what the driver chip's registers read back (`AxisDriver.Readings`);
  - the ADC samples;
  - the encoder counts the PIO reports;
  - the bytes a serial port delivers;
  - the current time in milliseconds.
- Integer widths are written out where the source relies on them: int8/uint8 wrap-around in
  sscanf's `%hh` conversions, the uint16 filter sum, the int32 wrap-around of the joystick
  product, and C's truncating division.

The following behaviours of the source are kept as written:

- SerialComm's CheckSerialCommand (SerialComm.cpp:411) resets its watchdog timer only when no
  command was available or the command was not recognised. Every handled command returns
  before that line.
- With the built-in defaults, the safety RMXV is 0 and the remote JMAX is 1000. Start-up with
  default tables therefore ends in ERR_Parameter as soon as an axis is active
  (`Startup.DefaultBootRefused`).
- ControllerComm compares only the first three characters of a command with strncmp. Text such
  as "ENAX…" is taken for ENAB and then fails its scan (`ControllerLink.LeadOnlyMalformed`).
- A single command in a frame from the controller does not restart the receive interval. A
  frame of several commands does (`ControllerLink.ReceiveSingle`, `ControllerLink.ReceiveBatch`).
- MovingAverage.h allows a sizeBase of 1 to 8. With 8, the uint8_t size 1 << 8 is 0, and the
  index `% size` divides by zero. The model admits sizeBase 1 to 7.

## Model

| member | source | states |
|---|---|---|
| Common.WrapInt8 | Software/Pico/Controller/StageDriverController/SerialComm.cpp:82 | a `%hhi` store into an `int8_t` keeps the value modulo 256 in -128..127 and leaves in-range values alone |
| Common.WrapUint8 | Software/Pico/Controller/StageDriverController/RemoteComm.cpp:376 | a store into a `uint8_t` keeps the value modulo 256 in 0..255 and leaves in-range values alone |
| Common.WrapInt32 | Software/Pico/Controller/StageDriverController/TMC.cpp:973 | a cast to `int32_t` yields an int32 value and leaves int32 values alone |
| Common.Saturate32 | Software/Pico/Controller/StageDriverController/SerialComm.cpp:82 | `%d`/`%i` (strtol on a 32-bit long) clamps out-of-range magnitudes to INT32_MIN/INT32_MAX and keeps int32 values |
| Common.TruncDiv | Software/Pico/Controller/StageDriverController/TMC.cpp:973 | C division truncates toward zero: the quotient of the magnitudes, negated when the signs differ |
| Common.Elapsed | Software/Pico/Controller/StageDriverController/SerialComm.cpp:64 | `currentTime - last` on unsigned long: in 0..2^32-1, congruent to the difference, and equal to it when the clock did not wrap |
| Common.Truncate | Software/Pico/Controller/StageDriverController/Parameters.cpp:298 | snprintf into a buffer of n bytes keeps a prefix of at most n-1 characters, the whole text when it fits |
| Common.Raise | Software/Pico/Controller/StageDriverController/Parameters.cpp:296-301 | the error latch: afterwards the flag is set; a raised latch keeps its message; a clear one stores the message truncated to MAXERRORSTRINGSIZE-1 |
| Common.RaiseFirstWins | Software/Pico/Controller/StageDriverController/Parameters.cpp:296 | once the flag is set, any number of further messages leave the latch unchanged |
| Common.RaiseKeepsFirst | Software/Pico/Controller/StageDriverController/Parameters.cpp:296-301 | raising a clear latch with several messages keeps exactly the first one |
| Text.DigitChar | Software/Pico/Controller/StageDriverController/SerialComm.cpp:113-114 | the printed digit of d is a digit whose value is d |
| Text.NatToDec | Software/Pico/Controller/StageDriverController/SerialComm.cpp:113-114 | Serial.print of a natural number: at least one character, all digits |
| Text.IntToDec | Software/Pico/Controller/StageDriverController/SerialComm.cpp:113-114 | Serial.print / `%i` of an integer: a digit or '-' first |
| Text.DecValueOfNatToDec | Software/Pico/Controller/StageDriverController/SerialComm.cpp:113-114 | the decimal text of n reads back as n |
| Text.DigitRun | Software/Pico/Controller/StageDriverController/SerialComm.cpp:82 | the digits strtol consumes: a maximal leading run of digits |
| Text.SpaceRun | Software/Pico/Controller/StageDriverController/SerialComm.cpp:82 | the white space strtol skips: a maximal leading run of spaces |
| Text.ParseInteger | Software/Pico/Controller/StageDriverController/SerialComm.cpp:82 | a successful conversion consumed at least one digit and leaves a strictly shorter rest |
| Text.ParseIntegerOfDec | Software/Pico/Controller/StageDriverController/RemoteComm.cpp:255 | the text `%i` prints for x, followed by a non-digit, parses back to x and the same rest |
| Text.ParseSigned | Software/Pico/Controller/StageDriverController/RemoteComm.cpp:255 | '-' and digits parse as the negated digit value, leaving the non-digit tail |
| Text.ParseUnsigned | Software/Pico/Controller/StageDriverController/RemoteComm.cpp:255 | digits parse as their value, leaving the non-digit tail |
| Text.Convert | Software/Pico/Controller/StageDriverController/SerialComm.cpp:82 | the stored value of `%hhi`, `%hhu` and `%d` is in int8, uint8 and int32 range respectively |
| Text.Scan | Software/Pico/Controller/StageDriverController/SerialComm.cpp:82 | sscanf yields at most one value per conversion of the format |
| Text.ScanRender | Software/Pico/Controller/StageDriverController/RemoteComm.cpp:165 | sscanf with a format reads back exactly the values snprintf wrote with it, when literals separate the numbers |
| Text.CStr | Software/Pico/Controller/StageDriverController/RemoteComm.cpp:396 | the C string of a buffer: the prefix before the first NUL, NUL-free, the whole buffer when it has no NUL |
| Text.Find | Software/Pico/Controller/StageDriverController/RemoteComm.cpp:370 | strchr: the first position holding the character, or none when it does not occur |
| Text.Until | Software/Pico/Controller/StageDriverController/RemoteComm.cpp:227 | the length of the prefix free of the separator, which is followed by the separator when shorter than the text |
| Text.Tokens | Software/Pico/Controller/StageDriverController/RemoteComm.cpp:227-232 | strtok: every token is non-empty and free of the separator |
| Text.TokensOfJoin | Software/Pico/Controller/StageDriverController/RemoteComm.cpp:227-232 | splitting the ';'-joined non-empty, separator-free tokens gives them back in order |
| Frame.Checksum | Software/Pico/Controller/StageDriverController/RemoteComm.cpp:392-400 | the 8-bit wrapping sum of the character codes is in 0..255 |
| Frame.CalculateChecksum | Software/Pico/Controller/StageDriverController/RemoteComm.cpp:392-400 | the loop up to the NUL computes the 8-bit sum of the C string |
| Frame.ValidatedPayload | Software/Pico/Controller/StageDriverController/RemoteComm.cpp:366-385 | an accepted buffer held a '\|' and the payload handed on is NUL-free |
| Frame.ValidateShape | Software/Pico/Controller/StageDriverController/RemoteComm.cpp:366-385 | a received `<payload\|ck` is accepted, with that payload, exactly when ck is the payload's checksum |
| Frame.ScanChecksum | Software/Pico/Controller/StageDriverController/RemoteComm.cpp:376 | `%hhu` reads a printed checksum back |
| Frame.FrameRoundTrip | Software/Pico/Controller/StageDriverController/RemoteComm.cpp:186-189 | a transmitted `<P\|checksum(P)>`, read up to '>', validates with payload P whenever P holds no '\|', '>' or NUL |
| Frame.ChecksumUpdate | Software/Pico/Controller/StageDriverController/RemoteComm.cpp:392-400 | replacing one character changes the sum by the difference of the codes, modulo 256 |
| Frame.ChecksumChanges | Software/Pico/Controller/StageDriverController/RemoteComm.cpp:392-400 | one changed byte changes the checksum unless the change is a multiple of 256 |
| Frame.SingleByteCorruptionDetected | Software/Pico/Controller/StageDriverController/RemoteComm.cpp:366-385 | a frame with one payload byte corrupted in transit (by a non-multiple of 256) is refused |
| ParameterStore.SetCell | Software/Pico/Controller/StageDriverController/Parameters.cpp:223 | writing one table cell changes that cell to v and no other cell or row |
| ParameterStore.SetColumn | Software/Pico/Controller/StageDriverController/Parameters.cpp:248-250 | the ENAB broadcast writes the column on every board and nothing else |
| ParameterStore.Unflatten | Software/Pico/Controller/StageDriverController/Parameters.cpp:62-66 | cutting the flash words back into rows gives the right number of rows of the right width |
| ParameterStore.FlattenLength | Software/Pico/Controller/StageDriverController/Parameters.cpp:108-112 | the row-major image of a table has rows x width words |
| ParameterStore.UnflattenFlatten | Software/Pico/Controller/StageDriverController/Parameters.cpp:62-66 | cutting a flattened table gives the table back |
| ParameterStore.Image | Software/Pico/Controller/StageDriverController/Parameters.cpp:101-112 | the saved image has the fixed flash size and starts with VERSION |
| ParameterStore.ReadImage | Software/Pico/Controller/StageDriverController/Parameters.cpp:60-66 | loading any image of the right size gives well-formed hardware and parameter tables |
| ParameterStore.ImageRoundTrip | Software/Pico/Controller/StageDriverController/Parameters.cpp:55-66 | loading a saved image gives back exactly the hardware table and both parameter tables that were saved |
| ParameterStore.Parameters.constructor | Software/Pico/Controller/StageDriverController/Parameters.cpp:21 | tables zeroed, hardware table at its in-class defaults, latch clear, the EEPROM buffer holding the flash contents |
| ParameterStore.Parameters.SetErrorMsg | Software/Pico/Controller/StageDriverController/Parameters.cpp:296-301 | the message is kept only when no error is pending |
| ParameterStore.Parameters.PrintErrorMsg | Software/Pico/Controller/StageDriverController/Parameters.cpp:308-316 | reports whether an error was pending and its text, and clears the flag |
| ParameterStore.Parameters.IsValidMotor | Software/Pico/Controller/StageDriverController/Parameters.cpp:185-194 | true exactly for boards 0..3; otherwise latches "Invalid board number" |
| ParameterStore.Parameters.IsActiveMotor | Software/Pico/Controller/StageDriverController/Parameters.cpp:201-212 | true exactly for a valid board whose device type is not NONE; latches an error only when asked to |
| ParameterStore.Parameters.SetDeviceType | Software/Pico/Controller/StageDriverController/Parameters.cpp:125-135 | accepts exactly devices 0..2 on a valid board and writes only that entry; any other input returns ERR_Parameter and writes nothing |
| ParameterStore.Parameters.GetDeviceType | Software/Pico/Controller/StageDriverController/Parameters.cpp:142-147 | the stored device type of a valid board; ERR_Parameter otherwise |
| ParameterStore.Parameters.SetAxisType | Software/Pico/Controller/StageDriverController/Parameters.cpp:154-166 | accepts exactly axis roles 0..4 on a valid board and writes only that entry; anything else returns ERR_Parameter and writes nothing |
| ParameterStore.Parameters.GetAxisType | Software/Pico/Controller/StageDriverController/Parameters.cpp:173-178 | the stored axis role of a valid board; ERR_Parameter otherwise |
| ParameterStore.Parameters.SetMotorParams | Software/Pico/Controller/StageDriverController/Parameters.cpp:220-225 | on a valid board stores the value unchecked into exactly one cell; otherwise ERR_Parameter and no write |
| ParameterStore.Parameters.GetMotorParams | Software/Pico/Controller/StageDriverController/Parameters.cpp:232-237 | on a valid board returns the stored cell; otherwise ERR_Parameter |
| ParameterStore.Parameters.SetRemoteParams | Software/Pico/Controller/StageDriverController/Parameters.cpp:245-256 | board -1 with ENAB writes ENAB on every board; board -1 with another index, or any invalid board, is ERR_Parameter with no write; otherwise exactly one cell |
| ParameterStore.Parameters.GetRemoteParams | Software/Pico/Controller/StageDriverController/Parameters.cpp:263-268 | on a valid board returns the stored cell; otherwise ERR_Parameter |
| ParameterStore.Parameters.SaveConfigToFlash | Software/Pico/Controller/StageDriverController/Parameters.cpp:101-118 | the EEPROM holds the image of the current tables; a failed commit returns ERR_Parameter and latches its message |
| ParameterStore.Parameters.LoadTables | Software/Pico/Controller/StageDriverController/Parameters.cpp:49-81 | flash load with a matching version restores the saved tables; a mismatch sets every device to NONE and returns ERR_Parameter; DEFAULT copies the safe motor and remote defaults into every board; any other mode keeps the tables |
| AxisDriver.Id4 | Software/Pico/Controller/StageDriverController/TMC.cpp:1069 | strncmp(.., 4) compares at most the first four characters, a prefix of the ID |
| AxisDriver.ParamIndexFrom | Software/Pico/Controller/StageDriverController/TMC.cpp:1064-1079 | FindParamIndexVal's search: the first parameter ID from k on that matches the name; none exactly when no ID matches |
| AxisDriver.RaiseBoard | Software/Pico/Controller/StageDriverController/Motors.cpp:437-449 | a board error sets the axis latch and changes nothing else of the axis |
| AxisDriver.TmcError | Software/Pico/Controller/StageDriverController/TMC.cpp:1123-1126 | TMC::SetErrorMsg: the step fails with ERR_TMC, the board latch is raised with source "TMC", nothing else changes |
| AxisDriver.CancelHoming | Software/Pico/Controller/StageDriverController/TMC.cpp:590-613 | a no-op when not homing; otherwise restores the LLEN/LREN virtual-limit enables and clears homing; always succeeds |
| AxisDriver.SetEnable | Software/Pico/Controller/StageDriverController/TMC.cpp:441-477 | no driver: ERR_TMC; otherwise enabled becomes mode != 0; disabling a real axis sets VMAX and TOFF to 0 in velocity mode and ends homing; enabling a real axis writes TOFF = MTOF; a simulated axis stops when disabled |
| AxisDriver.CheckError | Software/Pico/Controller/StageDriverController/TMC.cpp:843-899 | fails exactly on a real axis with a GSTAT error bit, with ERR_TMC, the axis disabled, not homing and VMAX 0; success changes nothing |
| AxisDriver.CheckErrorRecords | Software/Pico/Controller/StageDriverController/TMC.cpp:851-896 | a driver error stops the ramp and switches the driver off, and the latched message is the one for the highest-priority GSTAT or DRVSTATUS bit |
| AxisDriver.ConfigEntry | Software/Pico/Controller/StageDriverController/TMC.cpp:138-232 | one loop pass succeeds exactly when entry idx is in its Config range (CSCA 32..255, CRAN 0..3, CRUN/CHOL 0..31, MMIC 0..8, flags 0..1, MTOF 0..10, MSGT -64..63, RSEA 0..RMXA, EDEV 0..10^9); a refusal is ERR_TMC with the range message; success writes exactly the entry's driver fields |
| AxisDriver.ConfigFrom | Software/Pico/Controller/StageDriverController/TMC.cpp:138-232 | the Config loop touches no Motors closed-loop state of the axis |
| AxisDriver.ConfigFromOutcome | Software/Pico/Controller/StageDriverController/TMC.cpp:138-232 | the loop succeeds exactly when every remaining checked entry is in range; every failure is ERR_TMC |
| AxisDriver.ConfigFromAccepts | Software/Pico/Controller/StageDriverController/TMC.cpp:138-232 | the parameter loop succeeds exactly when every remaining checked entry is in range |
| AxisDriver.ConfigFromTmcError | Software/Pico/Controller/StageDriverController/TMC.cpp:138-232 | every failure of the parameter loop is ERR_TMC |
| AxisDriver.ConfigFromFirstRefused | Software/Pico/Controller/StageDriverController/TMC.cpp:1086-1098 | the message latched is the range message of the first refused entry in ID-list order |
| AxisDriver.ConfigOutcome | Software/Pico/Controller/StageDriverController/TMC.cpp:113-301 | no driver: ERR_TMC; success leaves the axis disabled, idle and not homing; a SIM axis gets xact=xenc=vel=0, encConst 0, maxIterations 1 and xmin/xmax from LLPS/LRPS when LLEN/LREN are set, else INT32_MIN/INT32_MAX; a real axis copies ECON/EMAX/ETOL/ERST and parks in position mode at the encoder or actual position |
| AxisDriver.ParkRamp | Software/Pico/Controller/StageDriverController/TMC.cpp:237-250 | the ramp ends in position mode with XTARGET at XENC when an encoder is configured, else at XACTUAL |
| AxisDriver.ConfigCopies | Software/Pico/Controller/StageDriverController/TMC.cpp:138-232 | a completed loop has copied the closed-loop parameters ECON, EMAX, ETOL and ERST it passed |
| AxisDriver.Clamp | Software/Pico/Controller/StageDriverController/TMC.cpp:368-369 | the SIM target clamp keeps a position inside [xmin, xmax] and leaves one already inside alone |
| AxisDriver.MoveAtVel | Software/Pico/Controller/StageDriverController/TMC.cpp:322-342 | abs(v) > RMXV is refused with ERR_TMC before anything changes; a SIM axis takes the velocity and restarts its integration clock; a real axis runs a velocity ramp of v's sign at VMAX = abs(v) |
| AxisDriver.MoveToPos | Software/Pico/Controller/StageDriverController/TMC.cpp:349-376 | a SIM axis lands at once on the clamped position at rest; a real axis ramps to pos in position mode at RSEV when setVel, else at the old VMAX; no driver is ERR_TMC |
| AxisDriver.SetXPos | Software/Pico/Controller/StageDriverController/TMC.cpp:383-398 | redefines the current position without moving: XTARGET and XACTUAL on a real axis, and on a SIM axis xact and xtar with the velocity cleared |
| AxisDriver.GetPos | Software/Pico/Controller/StageDriverController/TMC.cpp:405-416 | succeeds exactly with a driver; the value is XACTUAL or the simulated xact, and nothing changes |
| AxisDriver.GetEnc | Software/Pico/Controller/StageDriverController/TMC.cpp:423-434 | succeeds exactly with a driver; the value is XENC or the simulated xact, and nothing changes |
| AxisDriver.StartHoming | Software/Pico/Controller/StageDriverController/TMC.cpp:484-583 | a real axis is refused with its message on HSST/HMOD out of range, HMOD 0, abs(HDIR) != 1, limit mode without that side's switch enabled, or index mode with HNEV out of 0..3; an HVEL outside 0..RMXV fails with homing already set; success homes at VMAX HVEL toward HDIR with that side's virtual limit lifted; a SIM axis is zeroed at once |
| AxisDriver.ArmHoming | Software/Pico/Controller/StageDriverController/TMC.cpp:537-569 | once the checks pass homing is set, and the HVEL check comes only afterwards |
| AxisDriver.ArmLatch | Software/Pico/Controller/StageDriverController/TMC.cpp:537-563 | arming the latch changes only driver fields and sets homing |
| AxisDriver.EndHoming | Software/Pico/Controller/StageDriverController/TMC.cpp:620-683 | homing always ends |
| AxisDriver.EndHomingAborts | Software/Pico/Controller/StageDriverController/TMC.cpp:628-640 | an axis that has not stopped fails with ERR_TMC, disabled, VMAX 0 and a latched error |
| AxisDriver.EndHomingRezeroes | Software/Pico/Controller/StageDriverController/TMC.cpp:642-683 | a stopped axis takes the latched position as its new zero, gets its virtual limits back and is sent to 0 |
| AxisDriver.MoveToPosKeeps | Software/Pico/Controller/StageDriverController/TMC.cpp:349-376 | outside homing a real-axis move writes only RAMPMODE, VMAX, XTARGET and TOFF |
| AxisDriver.CheckErrorKeeps | Software/Pico/Controller/StageDriverController/TMC.cpp:843-899 | outside homing CheckError writes only RAMPMODE, VMAX and TOFF |
| AxisDriver.AbortHoming | Software/Pico/Controller/StageDriverController/TMC.cpp:628-640 | the aborted homing leaves the axis disabled, not homing, VMAX 0 and the error latched |
| AxisDriver.ClearEncoder | Software/Pico/Controller/StageDriverController/TMC.cpp:677-680 | XENC is reset to 0 when an encoder is configured |
| AxisDriver.Rezero | Software/Pico/Controller/StageDriverController/TMC.cpp:642-667 | XACTUAL becomes the new zero, the driver is back on and the LLEN/LREN virtual-limit enables are restored |
| AxisDriver.SetStatusValue | Software/Pico/Controller/StageDriverController/TMC.cpp:691-753 | SetStatusValue keeps Motors' closed-loop bookkeeping |
| AxisDriver.WriteTmcValue | Software/Pico/Controller/StageDriverController/TMC.cpp:705-722 | the register writes keep Motors' closed-loop bookkeeping |
| AxisDriver.WriteSimValue | Software/Pico/Controller/StageDriverController/TMC.cpp:735-744 | the simulated writes keep Motors' closed-loop bookkeeping |
| AxisDriver.SetStatusValueOutcome | Software/Pico/Controller/StageDriverController/TMC.cpp:691-753 | ENAB is always accepted (SetEnable's outcome ignored); any other entry on a remote-controlled axis is ERR_Motor with "Motor is under remote control"; VELO succeeds exactly for abs(v) <= RMXV and ACCE for 0..RMXA on a real axis; a SIM axis takes every value; no driver is ERR_TMC |
| AxisDriver.GetStatusValue | Software/Pico/Controller/StageDriverController/TMC.cpp:760-807 | succeeds exactly with a driver and changes nothing; ENAB reads the enable flag; on a SIM axis XACT and XTAR both read xact |
| AxisDriver.StopOutcome | Software/Pico/Controller/StageDriverController/TMC.cpp:939-964 | a stop fails with ERR_TMC; the axis stays enabled (and homing) only for a virtual-limit stop |
| AxisDriver.CheckStatus | Software/Pico/Controller/StageDriverController/TMC.cpp:906-991 | SIM: done exactly when at rest, xact advanced and kept inside the limits, xenc = xact; real: a following error or stall disables and fails, a stop-switch event fails, done = position reached; no driver is ERR_TMC |
| AxisDriver.StatusFlags | Software/Pico/Controller/StageDriverController/TMC.cpp:1001-1057 | succeeds exactly with a driver and changes nothing; a SIM axis reports its simulated word |
| AxisDriver.StatusFlagsWord | Software/Pico/Controller/StageDriverController/TMC.cpp:1001-1057 | a status word fits in 12 bits |
| AxisDriver.SimFlagsBits | Software/Pico/Controller/StageDriverController/TMC.cpp:1039-1051 | the SIM word has bit 11 iff enabled, bit 9 iff moving, bit 3 iff xact >= xmax, bit 2 iff xact <= xmin, and no other bit |
| AxisDriver.SetRegisterValue | Software/Pico/Controller/StageDriverController/TMC.cpp:813-820 | a raw write changes the register on a real axis only and always succeeds |
| AxisDriver.GetRegisterValue | Software/Pico/Controller/StageDriverController/TMC.cpp:827-836 | a raw read returns the register on a real axis and 0 otherwise |
| AxisDriver.DisableIdempotent | Software/Pico/Controller/StageDriverController/TMC.cpp:441-477 | disabling a real axis twice is the same as disabling it once |
| AxisDriver.CancelHomingIdempotent | Software/Pico/Controller/StageDriverController/TMC.cpp:590-613 | cancelling homing twice is the same as cancelling it once |
| AxisDriver.SimSetXPosThenGet | Software/Pico/Controller/StageDriverController/TMC.cpp:383-398 | after SetXPos a SIM axis reports the new position for XACT, XTAR and GetPos |
| AxisDriver.SimMoveThenDone | Software/Pico/Controller/StageDriverController/TMC.cpp:966-985 | a SIM axis sent inside its limits is reported done on the next status check, at the target |
| Orchestrator.CAbs | Software/Pico/Controller/StageDriverController/Motors.cpp:167 | abs() on an int32 agrees with the absolute value for every input but INT32_MIN |
| Orchestrator.MoveToRefusals | Software/Pico/Controller/StageDriverController/Motors.cpp:205-212 | a disabled axis is refused with "Driver is not enabled", a homing one with "Motor is homing", both ERR_Motor and nothing else changed; the call only ever returns ERR_None or ERR_Motor |
| Orchestrator.MoveToArms | Software/Pico/Controller/StageDriverController/Motors.cpp:214-232 | an accepted move searches exactly when the axis runs closed loop (encConst != 0 and maxIterations 0 or > 1), with maxIterations-1 tries and target and set position at pos, else with 0 tries; it is left moving exactly when the driver accepted the move, and searching is not cleared on a rejection |
| Orchestrator.MoveVelOutcome | Software/Pico/Controller/StageDriverController/Motors.cpp:239-265 | MoveTo's gates; past them the axis moves exactly when the driver accepted a non-zero velocity, and abs(v) > RMXV is ERR_Motor |
| Orchestrator.ConfigureOutcome | Software/Pico/Controller/StageDriverController/Motors.cpp:98-112 | succeeds exactly when the driver's Config does, leaving the axis disabled, idle and not homing with its search flag kept; a failure is ERR_Motor with "Could not configure board" |
| Orchestrator.PullCount | Software/Pico/Controller/StageDriverController/Motors.cpp:367-370 | PULL reads EMAX - iterationsLeft, the tries used so far |
| Orchestrator.Search | Software/Pico/Controller/StageDriverController/Motors.cpp:155-183 | a correction leaves the axis moving with its search flag; the budget stays |
| Orchestrator.Settle | Software/Pico/Controller/StageDriverController/Motors.cpp:162-183 | a completed search step that issues a correction leaves the axis moving; the budget stays |
| Orchestrator.Correct | Software/Pico/Controller/StageDriverController/Motors.cpp:167-177 | a deviation beyond the tolerance either issues a correction (axis moving) or ends the search; the budget stays |
| Orchestrator.Arrive | Software/Pico/Controller/StageDriverController/Motors.cpp:178-182 | arrival keeps the closed-loop budget |
| Orchestrator.Reissue | Software/Pico/Controller/StageDriverController/Motors.cpp:172 | the correction MoveToPos(setPosition, 0) keeps moving, searching, set position, target and tries |
| Orchestrator.Watch | Software/Pico/Controller/StageDriverController/Motors.cpp:150-153 | the homing and open-loop branches change neither the search nor the budget |
| Orchestrator.StatusPass | Software/Pico/Controller/StageDriverController/Motors.cpp:145-191 | an inactive or disabled board is untouched; only a searching, non-homing board issues corrections; a board not searching keeps its tries and does not start searching |
| Orchestrator.ErrorPass | Software/Pico/Controller/StageDriverController/Motors.cpp:135-142 | CheckError runs on every active board, enabled or not, and leaves the search state; an inactive board is untouched |
| Orchestrator.Update | Software/Pico/Controller/StageDriverController/Motors.cpp:125-194 | one tick never changes the closed-loop budget maxIterations |
| Orchestrator.UpdateSpendsOne | Software/Pico/Controller/StageDriverController/Motors.cpp:168-169 | with a budget above 1, each correction spends exactly one try and the counter never goes below 0 |
| Orchestrator.StatusSpendsOne | Software/Pico/Controller/StageDriverController/Motors.cpp:145-191 | the same for the status pass |
| Orchestrator.SettleSpendsOne | Software/Pico/Controller/StageDriverController/Motors.cpp:162-183 | the same for a completed search step |
| Orchestrator.CorrectionSpendsOne | Software/Pico/Controller/StageDriverController/Motors.cpp:167-177 | off target: one try is spent on a correction, or none are left and no correction is issued |
| Orchestrator.RetrySpendsOne | Software/Pico/Controller/StageDriverController/Motors.cpp:168-172 | off target with tries left: a correction spends exactly one |
| Orchestrator.StopSpendsNone | Software/Pico/Controller/StageDriverController/Motors.cpp:178-182 | within tolerance no try is spent and no correction is issued |
| Orchestrator.RunSpendsBudget | Software/Pico/Controller/StageDriverController/Motors.cpp:125-194 | over any run of ticks, corrections issued plus tries left equal the tries at the start, and the counter stays non-negative |
| Orchestrator.PullInBudget | Software/Pico/Controller/StageDriverController/Motors.cpp:214-220 | a closed-loop move with budget k >= 2 issues at most k-1 corrections, however many ticks follow |
| Orchestrator.UnlimitedNeverSettles | Software/Pico/Controller/StageDriverController/Motors.cpp:180 | with maxIterations 0 (iterationsLeft -1) and a quiet driver the search never ends and IsMotionDone never reports done |
| Orchestrator.UnlimitedStep | Software/Pico/Controller/StageDriverController/Motors.cpp:168-180 | one quiet tick keeps an unlimited search going |
| Orchestrator.ConvergedSearchIsDone | Software/Pico/Controller/StageDriverController/Motors.cpp:178-182 | a finite-budget search within tolerance ends the motion, with no correction |
| Orchestrator.ExhaustedSearchFails | Software/Pico/Controller/StageDriverController/Motors.cpp:173-177 | off target with no tries left: "Closed loop motion did not converge" is latched and the board stops moving and searching |
| Orchestrator.FailedSearchStops | Software/Pico/Controller/StageDriverController/Motors.cpp:157-161 | a driver error during a search latches a board error and clears moving and searching |
| Orchestrator.CorrectionShiftsSetPosition | Software/Pico/Controller/StageDriverController/Motors.cpp:166-172 | a correction is issued exactly off target with tries left; the set position moves by the (int32) deviation and a try is spent only when maxIterations > 1 |
| Orchestrator.CorrectShifts | Software/Pico/Controller/StageDriverController/Motors.cpp:166-172 | a correction with tries left moves the set position by the deviation and spends a try unless the iterations are unlimited |
| Orchestrator.OnBoard | Software/Pico/Controller/StageDriverController/Motors.cpp:200-233 | a single-board call changes only its own board |
| Orchestrator.ConfigureFrom | Software/Pico/Controller/StageDriverController/Motors.cpp:90-97 | the ConfigBoard(-1) sweep keeps the number of boards |
| Orchestrator.ConfigureFromSucceeds | Software/Pico/Controller/StageDriverController/Motors.cpp:90-97 | the sweep succeeds exactly when every active board from z on configures; every failure is ERR_Motor |
| Orchestrator.ConfigureFromBoards | Software/Pico/Controller/StageDriverController/Motors.cpp:90-97 | a successful sweep leaves each active board configured by its driver and every inactive board as it was |
| Orchestrator.ErrorSweepPerBoard | Software/Pico/Controller/StageDriverController/Motors.cpp:137-140 | the error sweep leaves each board as its own ErrorPass predicts |
| Orchestrator.StatusSweepPerBoard | Software/Pico/Controller/StageDriverController/Motors.cpp:147-191 | the status sweep leaves each board as its own StatusPass predicts |
| Orchestrator.UpdateAllPerBoard | Software/Pico/Controller/StageDriverController/Motors.cpp:125-194 | boards do not influence each other in ProcessUpdateChanges: each ends as the single-board Update predicts |
| Orchestrator.EnableFromAll | Software/Pico/Controller/StageDriverController/Motors.cpp:341-350 | SMS_ENAB for board -1 cannot fail on defined drivers: SetEnable is applied to every active board and the others are unchanged |
| Orchestrator.Handover | Software/Pico/Controller/StageDriverController/Motors.cpp:283-295 | SetRemoteEnabled keeps the number of boards |
| Orchestrator.ReportEmptyIff | Software/Pico/Controller/StageDriverController/Motors.cpp:456-478 | PrintErrorMsg prints nothing exactly when neither the general slot nor any board slot is raised |
| Orchestrator.BoardReportEmptyIff | Software/Pico/Controller/StageDriverController/Motors.cpp:466-473 | the board part of the report is empty exactly when no board slot from z on is raised |
| Orchestrator.ConfigureFromBoard | Software/Pico/Controller/StageDriverController/Motors.cpp:90-97 | after a successful sweep from board z, board b is configured by its driver exactly when b >= z and it is active, and is unchanged otherwise |
| Motion.TMC.constructor | Software/Pico/Controller/StageDriverController/TMC.cpp:73-106 | a fresh driver for board b: simulated state zero, no chip registers written, closed-loop constants zero |
| Motion.TMC.SetErrorMsg | Software/Pico/Controller/StageDriverController/TMC.cpp:1123-1126 | the board's error slot is raised with source "TMC" and the message, first message wins until printed |
| Motion.TMC.FindParamIndexVal | Software/Pico/Controller/StageDriverController/TMC.cpp:1064-1079 | success exactly when some parameter ID matches the name's first four characters; then the index and the stored value are returned and the slot is untouched, otherwise the board error names the unknown parameter |
| Motion.TMC.IsParamInRange | Software/Pico/Controller/StageDriverController/TMC.cpp:1086-1098 | true exactly when the stored parameter lies in [lo, hi]; otherwise the board error carries the parameter range message |
| Motion.TMC.IsValueInRange | Software/Pico/Controller/StageDriverController/TMC.cpp:1105-1116 | true exactly when the commanded value lies in [lo, hi]; otherwise the board error carries the value range message |
| Motion.TMC.SetEnable | Software/Pico/Controller/StageDriverController/TMC.cpp:441-477 | the outcome and new slot and driver state are exactly AxisDriver.SetEnable: enabling restores TOFF, disabling parks the ramp, switches the driver off and cancels homing |
| Motion.TMC.CancelHoming | Software/Pico/Controller/StageDriverController/TMC.cpp:590-613 | the outcome is exactly AxisDriver.CancelHoming: virtual-limit enables restored, latches disarmed, homing cleared |
| Motion.TMC.CheckError | Software/Pico/Controller/StageDriverController/TMC.cpp:843-899 | the outcome is exactly AxisDriver.CheckError: a GSTAT error bit on a real axis disables it and records the cause |
| Motion.TMC.Config | Software/Pico/Controller/StageDriverController/TMC.cpp:113-301 | the outcome is exactly AxisDriver.Config: the parameter loop checks and writes entries in ID order and stops at the first one out of range, then the real axis is parked |
| Motion.TMC.ConfigTmc | Software/Pico/Controller/StageDriverController/TMC.cpp:122-256 | the real-axis branch of Config equals AxisDriver.ConfigTmc |
| Motion.TMC.ConfigSim | Software/Pico/Controller/StageDriverController/TMC.cpp:257-290 | the simulated branch of Config equals AxisDriver.ConfigSim |
| Motion.TMC.ConfigParams | Software/Pico/Controller/StageDriverController/TMC.cpp:137-232 | the parameter loop equals AxisDriver.ConfigFrom from entry 0: entry by entry, stopping at the first refused one |
| Motion.TMC.ConfigEntry | Software/Pico/Controller/StageDriverController/TMC.cpp:137-232 | one pass of the loop equals AxisDriver.ConfigEntry; an accepted entry leaves the slot as it was and never touches the simulated state |
| Motion.TMC.ParkRamp | Software/Pico/Controller/StageDriverController/TMC.cpp:234-255 | the closing writes of Config equal AxisDriver.ParkRamp: position mode with the target at the current position |
| Motion.TMC.ClearStatusRegs | Software/Pico/Controller/StageDriverController/TMC.cpp:308-315 | always ERR_None; no modelled state changes |
| Motion.TMC.MoveAtVel | Software/Pico/Controller/StageDriverController/TMC.cpp:322-342 | the outcome is exactly AxisDriver.MoveAtVel: a velocity beyond RMXV is refused, otherwise a velocity ramp or a simulated velocity starting at `now` |
| Motion.TMC.MoveToPos | Software/Pico/Controller/StageDriverController/TMC.cpp:349-376 | the outcome is exactly AxisDriver.MoveToPos: a position ramp, or a simulated jump clamped into the travel limits |
| Motion.TMC.SetXPos | Software/Pico/Controller/StageDriverController/TMC.cpp:383-398 | the outcome is exactly AxisDriver.SetXPos: XTARGET and XACTUAL both become pos |
| Motion.TMC.GetPos | Software/Pico/Controller/StageDriverController/TMC.cpp:405-416 | the error, position and slot are exactly AxisDriver.GetPos |
| Motion.TMC.GetEnc | Software/Pico/Controller/StageDriverController/TMC.cpp:423-434 | the error, encoder position and slot are exactly AxisDriver.GetEnc |
| Motion.TMC.CheckHomingParams | Software/Pico/Controller/StageDriverController/TMC.cpp:489-535 | succeeds exactly when no homing check refuses the parameters; otherwise the first refusal, in the firmware's order, becomes the board error |
| Motion.TMC.CheckHomingRanges | Software/Pico/Controller/StageDriverController/TMC.cpp:490-494 | succeeds exactly when HSST is in 0..1 and HMOD in 0..2; otherwise the first out-of-range parameter is recorded |
| Motion.TMC.CheckHomingModes | Software/Pico/Controller/StageDriverController/TMC.cpp:495-535 | succeeds exactly when homing is enabled, HDIR is -1 or 1, the homing side switch is enabled (mode 1) or HNEV is in 0..3 (mode 2); otherwise the first refusal message is recorded |
| Motion.TMC.ArmLatch | Software/Pico/Controller/StageDriverController/TMC.cpp:537-563 | the latch and direction writes equal AxisDriver.ArmLatch for the configured search mode and side |
| Motion.TMC.ArmHoming | Software/Pico/Controller/StageDriverController/TMC.cpp:537-583 | the writes after the checks equal AxisDriver.ArmHoming |
| Motion.TMC.StartHoming | Software/Pico/Controller/StageDriverController/TMC.cpp:484-583 | the outcome is exactly AxisDriver.StartHoming: checks in order, homing set before the latch is armed |
| Motion.TMC.EndHoming | Software/Pico/Controller/StageDriverController/TMC.cpp:620-683 | the outcome is exactly AxisDriver.EndHoming: not stopped aborts with the driver off; stopped rezeroes at the latch, moves to 0 and clears the encoder |
| Motion.TMC.AbortHoming | Software/Pico/Controller/StageDriverController/TMC.cpp:628-640 | the not-stopped branch equals AxisDriver.AbortHoming |
| Motion.TMC.ReturnToZero | Software/Pico/Controller/StageDriverController/TMC.cpp:642-683 | the stopped branch equals AxisDriver.ReturnToZero |
| Motion.TMC.ClearEncoder | Software/Pico/Controller/StageDriverController/TMC.cpp:677-680 | the final XENC reset equals AxisDriver.ClearEncoder |
| Motion.TMC.Rezero | Software/Pico/Controller/StageDriverController/TMC.cpp:642-667 | the register rewrite equals AxisDriver.Rezero: the latched position becomes 0 |
| Motion.TMC.SetStatusValue | Software/Pico/Controller/StageDriverController/TMC.cpp:691-753 | the outcome is exactly AxisDriver.SetStatusValue: ENAB always passes, other entries are refused under remote control or out of range, then written |
| Motion.TMC.WriteTmcValue | Software/Pico/Controller/StageDriverController/TMC.cpp:705-722 | the real-driver writes equal AxisDriver.WriteTmcValue |
| Motion.TMC.WriteSimValue | Software/Pico/Controller/StageDriverController/TMC.cpp:735-744 | for every slot, the simulated writes equal AxisDriver.WriteSimValue |
| Motion.TMC.GetStatusValue | Software/Pico/Controller/StageDriverController/TMC.cpp:760-807 | the error, value and slot are exactly AxisDriver.GetStatusValue; unbound entries read 0 |
| Motion.TMC.ReportStop | Software/Pico/Controller/StageDriverController/TMC.cpp:940-952 | a stop event on one side equals AxisDriver.StopOutcome and always reports ERR_TMC |
| Motion.TMC.CheckStatus | Software/Pico/Controller/StageDriverController/TMC.cpp:906-991 | error, done flag and slot are exactly AxisDriver.CheckStatus: the real axis is judged from its status registers, the simulated one advances by its velocity since the last update |
| Motion.TMC.CheckRamp | Software/Pico/Controller/StageDriverController/TMC.cpp:911-965 | the real-axis half equals AxisDriver.RampStatus |
| Motion.TMC.CheckEvents | Software/Pico/Controller/StageDriverController/TMC.cpp:921-965 | the ramp events equal AxisDriver.RampEvents: stall, homing latch, stops |
| Motion.TMC.CheckStops | Software/Pico/Controller/StageDriverController/TMC.cpp:939-965 | the stop events, left before right, equal AxisDriver.StopEvents |
| Motion.TMC.AdvanceSim | Software/Pico/Controller/StageDriverController/TMC.cpp:966-985 | for every slot, the simulated half equals AxisDriver.SimStatus |
| Motion.TMC.GetStatusFlags | Software/Pico/Controller/StageDriverController/TMC.cpp:1001-1057 | the error, 12-bit flag word and slot are exactly AxisDriver.StatusFlags |
| Motion.TMC.SetRegisterValue | Software/Pico/Controller/StageDriverController/TMC.cpp:813-820 | the outcome equals AxisDriver.SetRegisterValue: a raw write on a real axis, refused on a simulated one |
| Motion.TMC.GetRegisterValue | Software/Pico/Controller/StageDriverController/TMC.cpp:827-836 | always ERR_None, with the value of AxisDriver.GetRegisterValue (0 on a simulated axis) |
| Motion.Motors.constructor | Software/Pico/Controller/StageDriverController/Motors.cpp:40-60 | four drivers for boards 0 to 3, every flag and counter 0, no error pending |
| Motion.Motors.SetErrorMsg | Software/Pico/Controller/StageDriverController/Motors.cpp:437-449 | board -1 raises the general slot, a valid board its own slot, any other number becomes an invalid-board error in the parameter store; the summary flag is set |
| Motion.Motors.MoveToPos | Software/Pico/Controller/StageDriverController/Motors.cpp:200-233 | an inactive board is refused with ERR_Motor; an active one's axis changes exactly as Orchestrator.MoveTo, no other board changes |
| Motion.Motors.MoveBoard | Software/Pico/Controller/StageDriverController/Motors.cpp:205-233 | the body past the active check equals Orchestrator.MoveTo |
| Motion.Motors.Dispatch | Software/Pico/Controller/StageDriverController/Motors.cpp:220-232 | the driver call on an armed slot equals Orchestrator.Dispatch: a rejection clears moving and records a board message |
| Motion.Motors.MoveAtVel | Software/Pico/Controller/StageDriverController/Motors.cpp:239-265 | an inactive board is refused; an active one changes exactly as Orchestrator.MoveVel |
| Motion.Motors.VelBoard | Software/Pico/Controller/StageDriverController/Motors.cpp:244-265 | the body past the active check equals Orchestrator.MoveVel |
| Motion.Motors.StartHoming | Software/Pico/Controller/StageDriverController/Motors.cpp:321-329 | an inactive board is refused; an active one changes exactly as Orchestrator.Home |
| Motion.Motors.GetPos | Software/Pico/Controller/StageDriverController/Motors.cpp:272-276 | an inactive board is refused; an active one returns the driver's GetPos |
| Motion.Motors.SetRemoteEnabled | Software/Pico/Controller/StageDriverController/Motors.cpp:283-295 | always ERR_None; board -1 sets the remote flag of every active board, a single active board is set, an inactive one is left alone |
| Motion.Motors.ClearStatusRegs | Software/Pico/Controller/StageDriverController/Motors.cpp:302-314 | ERR_None exactly for board -1 or an active board, otherwise the parameter store records "Inactive board number" |
| Motion.Motors.SetStatusValue | Software/Pico/Controller/StageDriverController/Motors.cpp:336-355 | ENAB on board -1 sweeps every active board (Orchestrator.EnableFrom); otherwise an inactive board is refused and an active one goes to its driver |
| Motion.Motors.EnableAll | Software/Pico/Controller/StageDriverController/Motors.cpp:341-350 | the loop equals Orchestrator.EnableFrom from board 0; the general slot is unchanged and a raised summary flag stays raised |
| Motion.Motors.EnableStep | Software/Pico/Controller/StageDriverController/Motors.cpp:341-350 | one iteration advances the sweep by one board |
| Motion.Motors.EnableBoard | Software/Pico/Controller/StageDriverController/Motors.cpp:343-348 | one board's enable equals Orchestrator.Enable |
| Motion.Motors.GetStatusValue | Software/Pico/Controller/StageDriverController/Motors.cpp:362-374 | an inactive board is refused; PULL is answered as EMAX minus the tries left; anything else comes from the driver |
| Motion.Motors.SetRegisterValue | Software/Pico/Controller/StageDriverController/Motors.cpp:381-385 | an inactive board is refused; an active one's driver writes the register |
| Motion.Motors.GetRegisterValue | Software/Pico/Controller/StageDriverController/Motors.cpp:392-396 | an inactive board is refused with "Inactive board number"; an active one's driver reads the register |
| Motion.Motors.GetStatusFlags | Software/Pico/Controller/StageDriverController/Motors.cpp:403-407 | an inactive board is refused; an active one's driver assembles the flag word |
| Motion.Motors.IsMotionDone | Software/Pico/Controller/StageDriverController/Motors.cpp:414-430 | board -1 is done exactly when no active board moves or searches; an active board reports its own state; an inactive one is refused |
| Motion.Motors.ConfigBoard | Software/Pico/Controller/StageDriverController/Motors.cpp:85-118 | board -1 configures active boards in order and stops at the first failure (Orchestrator.ConfigureFrom); one active board is configured alone; anything else raises "Invalid motor number" |
| Motion.Motors.ConfigAll | Software/Pico/Controller/StageDriverController/Motors.cpp:90-97 | the loop equals Orchestrator.ConfigureFrom from board 0 |
| Motion.Motors.ConfigStep | Software/Pico/Controller/StageDriverController/Motors.cpp:90-97 | one iteration advances the configure sweep by one board |
| Motion.Motors.ConfigActive | Software/Pico/Controller/StageDriverController/Motors.cpp:92-96 | an active board is configured by its driver: success advances the sweep by one board, a failure ends it with that error |
| Motion.Motors.ConfigureBoard | Software/Pico/Controller/StageDriverController/Motors.cpp:98-112 | one board's configuration equals Orchestrator.Configure: a driver failure is ERR_Motor with a board message |
| Motion.Motors.ProcessUpdateChanges | Software/Pico/Controller/StageDriverController/Motors.cpp:125-194 | more than 50 ms after the last error pass the error sweep runs; more than 10 ms after the last status pass the status sweep runs (Orchestrator.UpdateAll); each restarts its own timer |
| Motion.Motors.ErrorPhase | Software/Pico/Controller/StageDriverController/Motors.cpp:135-142 | when due, the axes become Orchestrator.ErrorSweep and the timer restarts; otherwise nothing changes |
| Motion.Motors.StatusPhase | Software/Pico/Controller/StageDriverController/Motors.cpp:145-193 | when due, the axes become Orchestrator.StatusSweep and the timer restarts; otherwise nothing changes |
| Motion.Motors.ErrorAll | Software/Pico/Controller/StageDriverController/Motors.cpp:135-142 | the error loop equals Orchestrator.ErrorSweep from board 0 |
| Motion.Motors.ErrorStep | Software/Pico/Controller/StageDriverController/Motors.cpp:135-142 | one iteration advances the error sweep by one board |
| Motion.Motors.ErrorBoard | Software/Pico/Controller/StageDriverController/Motors.cpp:137-141 | only board z changes, exactly as Orchestrator.ErrorPass |
| Motion.Motors.StatusAll | Software/Pico/Controller/StageDriverController/Motors.cpp:145-193 | the status loop equals Orchestrator.StatusSweep from board 0 |
| Motion.Motors.StatusStep | Software/Pico/Controller/StageDriverController/Motors.cpp:145-193 | one iteration advances the status sweep by one board |
| Motion.Motors.StatusBoard | Software/Pico/Controller/StageDriverController/Motors.cpp:146-190 | only board z changes, exactly as Orchestrator.StatusPass |
| Motion.Motors.PollBoard | Software/Pico/Controller/StageDriverController/Motors.cpp:148-189 | an enabled active board is polled as Orchestrator.StatusPass: homing first, then a search, then open-loop motion |
| Motion.Motors.WatchBoard | Software/Pico/Controller/StageDriverController/Motors.cpp:148-153 | the homing and open-loop branches equal Orchestrator.Watch |
| Motion.Motors.SearchBoard | Software/Pico/Controller/StageDriverController/Motors.cpp:155-183 | the closed-loop branch equals Orchestrator.Search |
| Motion.Motors.SettleBoard | Software/Pico/Controller/StageDriverController/Motors.cpp:162-181 | a finished search move equals Orchestrator.Settle: corrected re-issue, failed search or end of search |
| Motion.Motors.CorrectBoard | Software/Pico/Controller/StageDriverController/Motors.cpp:166-176 | equals Orchestrator.Correct |
| Motion.Motors.ArriveBoard | Software/Pico/Controller/StageDriverController/Motors.cpp:177-181 | equals Orchestrator.Arrive |
| Motion.Motors.PrintErrorMsg | Software/Pico/Controller/StageDriverController/Motors.cpp:456-478 | reports exactly when the summary flag was raised, with the text of Orchestrator.Report, and clears every flag; otherwise prints nothing and changes nothing |
| RemoteRelay.CheckCommandAccepts | Software/Pico/Controller/StageDriverController/RemoteComm.cpp:136-150 | the argument checks refuse nothing exactly when the command is acceptable: channel -1..4 for ENAB and 0..3 otherwise, ENAB 0..1, JDIR and EDIR of magnitude 1, JMAX 0..RMXV of the board |
| RemoteRelay.ActiveFrom | Software/Pico/Controller/StageDriverController/RemoteComm.cpp:159-160 | every listed board lies between z and 3 |
| RemoteRelay.ActiveFromMembers | Software/Pico/Controller/StageDriverController/RemoteComm.cpp:159-160 | a board is listed exactly when it is from z on and active |
| RemoteRelay.ActiveFromAscending | Software/Pico/Controller/StageDriverController/RemoteComm.cpp:159-160 | the active boards are listed in ascending order, each once |
| RemoteRelay.FramesStep | Software/Pico/Controller/StageDriverController/RemoteComm.cpp:159-163 | board z adds a frame to the broadcast exactly when it is active |
| RemoteRelay.FramesFor | Software/Pico/Controller/StageDriverController/RemoteComm.cpp:159-163 | one framed "KEY<b>=<v>" per listed board, in that order |
| RemoteRelay.Send | Software/Pico/Controller/StageDriverController/RemoteComm.cpp:130-173 | the relay state after SendRemoteCommand stays well formed |
| RemoteRelay.Deliver | Software/Pico/Controller/StageDriverController/RemoteComm.cpp:153-171 | the relay state after an accepted command stays well formed |
| RemoteRelay.SendOutcome | Software/Pico/Controller/StageDriverController/RemoteComm.cpp:130-173 | the command succeeds exactly when it is acceptable, and the remote-parameter table is never touched |
| RemoteRelay.SendRefused | Software/Pico/Controller/StageDriverController/RemoteComm.cpp:136-150 | a refused command returns ERR_Remote and changes nothing but the relay's error slot, which gets the first failing check's message |
| RemoteRelay.SendAccepted | Software/Pico/Controller/StageDriverController/RemoteComm.cpp:153-172 | an accepted command keeps the error slot and appends its frames, exactly one for a single channel |
| RemoteRelay.DecimalIsPlain | Software/Pico/Controller/StageDriverController/RemoteComm.cpp:161 | a %i rendering holds only digits and a minus sign |
| RemoteRelay.RemoteIdsPlain | Software/Pico/Controller/StageDriverController/Parameters.cpp:49-94 | no remote parameter ID contains NUL |
| RemoteRelay.CommandTextCStr | Software/Pico/Controller/StageDriverController/RemoteComm.cpp:165 | a command text is its own C string, so transmitRemoteCommand sends it whole |
| RemoteRelay.CommandTextPlain | Software/Pico/Controller/StageDriverController/RemoteComm.cpp:165 | a command text holds no '\|', '>', ';' or NUL, so it cannot break the frame |
| RemoteRelay.CommandFrameDelivered | Software/Pico/Controller/StageDriverController/RemoteComm.cpp:180-191 | a transmitted command, received up to '>', passes the checksum check with its payload intact |
| RemoteRelay.CommandTextScans | Software/Pico/Controller/StageDriverController/RemoteComm.cpp:255 | sscanf with "KEY%hhi=%i" reads back the channel and value of a command text |
| RemoteRelay.SendRow | Software/Pico/Controller/StageDriverController/RemoteComm.cpp:73-79 | the row sweep keeps the relay state well formed |
| RemoteRelay.SendEntry | Software/Pico/Controller/StageDriverController/RemoteComm.cpp:74-78 | one row entry keeps the relay state well formed |
| RemoteRelay.SendRowStep | Software/Pico/Controller/StageDriverController/RemoteComm.cpp:73-79 | an accepted entry continues with the next one; a refused entry ends the row with its outcome |
| RemoteRelay.SendTables | Software/Pico/Controller/StageDriverController/RemoteComm.cpp:61-71 | the all-board sweep keeps the relay state well formed |
| RemoteRelay.SendRowSucceeds | Software/Pico/Controller/StageDriverController/RemoteComm.cpp:73-79 | a row goes through exactly when every remaining entry is acceptable; otherwise ERR_Remote |
| RemoteRelay.SendTablesSucceeds | Software/Pico/Controller/StageDriverController/RemoteComm.cpp:61-71 | Config(-1) from board z succeeds exactly when the rows of all active boards from z on are acceptable |
| RemoteRelay.DefaultTablesRefused | Software/Pico/Controller/StageDriverController/RemoteComm.cpp:61-71 | with the default tables (RMXV 0, remote JMAX 1000) Config(-1) fails with ERR_Remote once any board is active |
| RemoteRelay.TablesRefused | Software/Pico/Controller/StageDriverController/RemoteComm.cpp:61-71 | one refused entry in an active board's row makes Config(-1) fail with ERR_Remote |
| RemoteRelay.JmaxRefused | Software/Pico/Controller/StageDriverController/RemoteComm.cpp:145-147 | a JMAX above the board's RMXV is not acceptable |
| RemoteRelay.KeyLeads | Software/Pico/Controller/StageDriverController/RemoteComm.cpp:254 | a command text starts with its key, so the prefix comparison routes it |
| RemoteRelay.DecodeGoto | Software/Pico/Controller/StageDriverController/RemoteComm.cpp:254-258 | the text "POS<b>=<v>" decodes to a move of board b to v |
| RemoteRelay.DecodeDrive | Software/Pico/Controller/StageDriverController/RemoteComm.cpp:275-279 | the text "VEL<b>=<v>" decodes to a velocity command |
| RemoteRelay.ClaimTextScans | Software/Pico/Controller/StageDriverController/RemoteComm.cpp:292 | sscanf with "ACCREQ%hhi" reads back the board |
| RemoteRelay.DecodeClaim | Software/Pico/Controller/StageDriverController/RemoteComm.cpp:291-295 | the text "ACCREQ<b>" decodes to an access request for board b |
| RemoteRelay.GotoBoard | Software/Pico/Controller/StageDriverController/RemoteComm.cpp:254-271 | a remote POS keeps the relay state well formed |
| RemoteRelay.DriveBoard | Software/Pico/Controller/StageDriverController/RemoteComm.cpp:275-287 | a remote VEL keeps the relay state well formed |
| RemoteRelay.Moved | Software/Pico/Controller/StageDriverController/RemoteComm.cpp:260-269 | the outcome of a remote move keeps the relay state well formed |
| RemoteRelay.ClaimBoard | Software/Pico/Controller/StageDriverController/RemoteComm.cpp:291-302 | an access request keeps the relay state well formed |
| RemoteRelay.Process | Software/Pico/Controller/StageDriverController/RemoteComm.cpp:244-305 | processing one token keeps the relay state well formed |
| RemoteRelay.Act | Software/Pico/Controller/StageDriverController/RemoteComm.cpp:244-305 | acting on a decoded command keeps the relay state well formed |
| RemoteRelay.ProcessAll | Software/Pico/Controller/StageDriverController/RemoteComm.cpp:223-233 | processing a frame's tokens in order keeps the relay state well formed |
| RemoteRelay.LocalBoardIgnoresRemote | Software/Pico/Controller/StageDriverController/RemoteComm.cpp:259 | POS and VEL for a board under serial control change nothing at all |
| RemoteRelay.PosSetsVelocityOnce | Software/Pico/Controller/StageDriverController/RemoteComm.cpp:260-265 | the first POS for a remote board sets the velocity and marks the board, the next POS does not set it, and VEL clears the mark |
| RemoteRelay.ClaimHandsOver | Software/Pico/Controller/StageDriverController/RemoteComm.cpp:291-302 | ACCREQ on an active board sets its remote flag, sends exactly "ENAB<b>=1", stores ENAB 1, and leaves the other boards and the error slot alone |
| RemoteRelay.Receive | Software/Pico/Controller/StageDriverController/RemoteComm.cpp:207-233 | receiving keeps the relay state well formed |
| RemoteRelay.InboxAccepts | Software/Pico/Controller/StageDriverController/RemoteComm.cpp:218-233 | an accepted frame is split on ';' |
| RemoteRelay.DeliveredBatch | Software/Pico/Controller/StageDriverController/RemoteComm.cpp:209-233 | the frame of a payload free of '\|', '>' and NUL is accepted whole |
| RemoteRelay.SplitOfJoin | Software/Pico/Controller/StageDriverController/RemoteComm.cpp:227-232 | strtok on ';' gives back ';'-joined non-empty tokens free of ';' |
| RemoteRelay.BatchRoundTrip | Software/Pico/Controller/StageDriverController/RemoteComm.cpp:107-119 | a frame carrying ';'-joined tokens hands exactly those tokens to processRemoteCommand |
| RemoteRelay.JoinPlain | Software/Pico/Controller/StageDriverController/RemoteComm.cpp:110 | joining tokens free of '\|', '>' and NUL adds none of them |
| RemoteRelay.CorruptFrameDropped | Software/Pico/Controller/StageDriverController/RemoteComm.cpp:218-221 | a frame with one payload byte changed in transit is dropped and nothing changes |
| RemoteRelay.Positions | Software/Pico/Controller/StageDriverController/RemoteComm.cpp:107-111 | the position sweep keeps the relay state well formed |
| RemoteRelay.Polled | Software/Pico/Controller/StageDriverController/RemoteComm.cpp:109 | a GetPos poll keeps the relay state well formed |
| RemoteRelay.TerminatedConcat | Software/Pico/Controller/StageDriverController/RemoteComm.cpp:110 | filling the buffer with a then b is filling it with a + b |
| RemoteRelay.TerminatedJoin | Software/Pico/Controller/StageDriverController/RemoteComm.cpp:112-113 | overwriting the last ';' leaves the ';'-joined tokens |
| RemoteRelay.SendPositions | Software/Pico/Controller/StageDriverController/RemoteComm.cpp:103-122 | sending positions keeps the relay state well formed |
| RemoteRelay.Reports | Software/Pico/Controller/StageDriverController/RemoteComm.cpp:107-111 | one POS token per listed board |
| RemoteRelay.ReportsFrame | Software/Pico/Controller/StageDriverController/RemoteComm.cpp:107-111 | the report reads only the axes of the listed boards |
| RemoteRelay.PositionTokens | Software/Pico/Controller/StageDriverController/RemoteComm.cpp:107-111 | a report holds one token per active board, ascending, with its GetPos value |
| RemoteRelay.ActiveTokens | Software/Pico/Controller/StageDriverController/RemoteComm.cpp:107-111 | an active board puts its own POS token in front of the report of the boards after it |
| RemoteRelay.ReportsCons | Software/Pico/Controller/StageDriverController/RemoteComm.cpp:107-111 | the report from an active board z starts with z's token and goes on with the boards after z |
| RemoteRelay.ReportsPlain | Software/Pico/Controller/StageDriverController/RemoteComm.cpp:110 | POS tokens are non-empty and hold none of ';', '\|', '>' and NUL |
| RemoteRelay.PositionReportDelivered | Software/Pico/Controller/StageDriverController/RemoteComm.cpp:103-122 | a non-empty report passes the receiver's checksum check and splits back into its tokens |
| RemoteRelay.RemoteParamIndexFrom | Software/Pico/Controller/StageDriverController/RemoteComm.cpp:432-437 | finds the first remote ID from k on matching in four characters; none exactly when no ID matches |
| RemoteRelay.RemoteParamIdsFound | Software/Pico/Controller/StageDriverController/RemoteComm.cpp:432-437 | the remote IDs differ in four characters, so each finds its own index |
| RemoteRelay.ConfigTables | Software/Pico/Controller/StageDriverController/RemoteComm.cpp:56-85 | Config keeps the relay state well formed |
| RemoteRelay.ConfigTablesOutcome | Software/Pico/Controller/StageDriverController/RemoteComm.cpp:56-85 | Config succeeds exactly when every row it sends is acceptable; a refused row gives ERR_Remote, an inactive board ERR_Motor |
| RemoteRelay.RemoteComm.constructor | Software/Pico/Controller/StageDriverController/RemoteComm.cpp:31-49 | the link starts with no error, no repeat marks, nothing sent and both timers at 0 |
| RemoteRelay.RemoteComm.SetErrorMsg | Software/Pico/Controller/StageDriverController/RemoteComm.cpp:339-344 | first message wins until printed |
| RemoteRelay.RemoteComm.PrintErrorMsg | Software/Pico/Controller/StageDriverController/RemoteComm.cpp:351-359 | reports the pending message exactly when one is pending, and clears the flag |
| RemoteRelay.RemoteComm.CheckArguments | Software/Pico/Controller/StageDriverController/RemoteComm.cpp:136-150 | accepts exactly when no check refuses; otherwise the first failing check's message is recorded |
| RemoteRelay.RemoteComm.CheckChannelRange | Software/Pico/Controller/StageDriverController/RemoteComm.cpp:136-140 | the channel check, with its message on failure |
| RemoteRelay.RemoteComm.CheckValueRange | Software/Pico/Controller/StageDriverController/RemoteComm.cpp:141-150 | the per-key value check, with its message on failure |
| RemoteRelay.RemoteComm.TransmitRemoteCommand | Software/Pico/Controller/StageDriverController/RemoteComm.cpp:180-191 | always ERR_None; exactly the framed C string is appended to the output |
| RemoteRelay.RemoteComm.Broadcast | Software/Pico/Controller/StageDriverController/RemoteComm.cpp:158-163 | one frame per active board, in board order |
| RemoteRelay.RemoteComm.BroadcastNext | Software/Pico/Controller/StageDriverController/RemoteComm.cpp:158-163 | one turn of the broadcast loop sends board z's frame exactly when it is active |
| RemoteRelay.RemoteComm.BroadcastStep | Software/Pico/Controller/StageDriverController/RemoteComm.cpp:160-162 | board z's frame exactly when it is active |
| RemoteRelay.RemoteComm.HandOver | Software/Pico/Controller/StageDriverController/RemoteComm.cpp:154-157 | the axes become Orchestrator.Handover for the channel and value, nothing else changes |
| RemoteRelay.RemoteComm.HandOverAxes | Software/Pico/Controller/StageDriverController/RemoteComm.cpp:154 | the motor section's axes become Orchestrator.Handover |
| RemoteRelay.RemoteComm.SendRemoteCommand | Software/Pico/Controller/StageDriverController/RemoteComm.cpp:130-173 | error and new state are exactly RemoteRelay.Send |
| RemoteRelay.RemoteComm.DeliverCommand | Software/Pico/Controller/StageDriverController/RemoteComm.cpp:153-171 | the state after the checks is exactly RemoteRelay.Deliver |
| RemoteRelay.RemoteComm.DeliverPlain | Software/Pico/Controller/StageDriverController/RemoteComm.cpp:168-171 | a non-ENAB command equals RemoteRelay.Deliver: one frame |
| RemoteRelay.RemoteComm.DeliverEnable | Software/Pico/Controller/StageDriverController/RemoteComm.cpp:164-167 | a single-channel ENAB equals RemoteRelay.Deliver: hand-over, then one frame |
| RemoteRelay.RemoteComm.DeliverBroadcast | Software/Pico/Controller/StageDriverController/RemoteComm.cpp:158-163 | ENAB -1 equals RemoteRelay.Deliver: hand-over of every active board, then a frame for each |
| RemoteRelay.RemoteComm.Config | Software/Pico/Controller/StageDriverController/RemoteComm.cpp:56-85 | error and new state are exactly RemoteRelay.ConfigTables |
| RemoteRelay.RemoteComm.SendAllParameters | Software/Pico/Controller/StageDriverController/RemoteComm.cpp:61-71 | the loop equals RemoteRelay.SendTables from board 0 |
| RemoteRelay.RemoteComm.SendParameters | Software/Pico/Controller/StageDriverController/RemoteComm.cpp:64-70 | the row loop equals RemoteRelay.SendRow from entry 0 |
| RemoteRelay.RemoteComm.SendParameter | Software/Pico/Controller/StageDriverController/RemoteComm.cpp:65-69 | one entry equals RemoteRelay.SendEntry |
| RemoteRelay.RemoteComm.IsValueInRange | Software/Pico/Controller/StageDriverController/RemoteComm.cpp:451-462 | true exactly when min <= value <= max; otherwise "Value <name> out of range (<value>)" is recorded |
| RemoteRelay.RemoteComm.FindRemoteParamIndex | Software/Pico/Controller/StageDriverController/RemoteComm.cpp:428-442 | success exactly when some remote ID matches in four characters, with that index; otherwise ERR_TMC and "Remote parameter <name> not found" |
| RemoteRelay.RemoteComm.SendPositionUpdates | Software/Pico/Controller/StageDriverController/RemoteComm.cpp:92-123 | once the interval has elapsed, the state becomes RemoteRelay.SendPositions and the timer restarts unless the report was empty; otherwise nothing changes |
| RemoteRelay.RemoteComm.ReportAll | Software/Pico/Controller/StageDriverController/RemoteComm.cpp:107-111 | the buffer holds "POS<b>=<pos>;" for every active board, as RemoteRelay.Positions |
| RemoteRelay.RemoteComm.ReportNext | Software/Pico/Controller/StageDriverController/RemoteComm.cpp:107-111 | one turn of the report loop appends board z's piece and keeps the buffer equal to the tokens so far |
| RemoteRelay.RemoteComm.ReportBoard | Software/Pico/Controller/StageDriverController/RemoteComm.cpp:108-110 | board z's piece and state step match RemoteRelay.Positions |
| RemoteRelay.RemoteComm.PosPolled | Software/Pico/Controller/StageDriverController/RemoteComm.cpp:109 | the position and board state are exactly AxisDriver.GetPos |
| RemoteRelay.RemoteComm.CheckRemoteCommands | Software/Pico/Controller/StageDriverController/RemoteComm.cpp:199-237 | once the interval has elapsed the state becomes RemoteRelay.Receive; a runt or a bad checksum returns before the timer restarts |
| RemoteRelay.RemoteComm.ProcessCommands | Software/Pico/Controller/StageDriverController/RemoteComm.cpp:223-233 | the tokens in order equal RemoteRelay.ProcessAll |
| RemoteRelay.RemoteComm.ProcessRemoteCommand | Software/Pico/Controller/StageDriverController/RemoteComm.cpp:244-305 | the new state is exactly RemoteRelay.Process |
| RemoteRelay.RemoteComm.Perform | Software/Pico/Controller/StageDriverController/RemoteComm.cpp:254-303 | the new state is exactly RemoteRelay.Act: a malformed command records its format error, an unknown one is ignored |
| RemoteRelay.RemoteComm.ProcessPos | Software/Pico/Controller/StageDriverController/RemoteComm.cpp:259-270 | the new state is exactly RemoteRelay.GotoBoard |
| RemoteRelay.RemoteComm.ProcessVel | Software/Pico/Controller/StageDriverController/RemoteComm.cpp:280-286 | the new state is exactly RemoteRelay.DriveBoard |
| RemoteRelay.RemoteComm.Settle | Software/Pico/Controller/StageDriverController/RemoteComm.cpp:260-269 | the repeat mark, then the error message on failure, as RemoteRelay.Moved |
| RemoteRelay.RemoteComm.MovePolled | Software/Pico/Controller/StageDriverController/RemoteComm.cpp:261-263 | the outcome is the board's Orchestrator.MoveTo |
| RemoteRelay.RemoteComm.VelPolled | Software/Pico/Controller/StageDriverController/RemoteComm.cpp:282 | the outcome is the board's Orchestrator.MoveVel |
| RemoteRelay.RemoteComm.ProcessClaim | Software/Pico/Controller/StageDriverController/RemoteComm.cpp:296-302 | the new state is exactly RemoteRelay.ClaimBoard |
| RemoteRelay.RemoteComm.StoreClaim | Software/Pico/Controller/StageDriverController/RemoteComm.cpp:300-301 | the board's remote ENAB entry becomes 1, nothing else changes |
| SerialDispatch.IdFrom | Software/Pico/Controller/StageDriverController/SerialComm.cpp:134-136 | the first ID from k on matching the key in four characters; none exactly when no later ID matches |
| SerialDispatch.IdFromFinds | Software/Pico/Controller/StageDriverController/SerialComm.cpp:134-136 | entry i is found when it matches and no entry between k and i does |
| SerialDispatch.IdFound | Software/Pico/Controller/StageDriverController/SerialComm.cpp:134-136 | in a table whose four-character IDs all differ, each entry is found by its own ID |
| SerialDispatch.StatusIdFound | Software/Pico/Controller/StageDriverController/SerialComm.cpp:152-154 | every status ID after SMS_ or GMS_ finds its own entry |
| SerialDispatch.RemoteIdFound | Software/Pico/Controller/StageDriverController/SerialComm.cpp:282-284 | every remote ID after SRP_ or GRP_ finds its own entry |
| SerialDispatch.MotorIdFound | Software/Pico/Controller/StageDriverController/SerialComm.cpp:221-223 | every one of the 34 motor parameter IDs after SMP_ or GMP_ finds its own entry |
| SerialDispatch.MotorIdShape | Software/Pico/Controller/StageDriverController/SerialComm.cpp:170-235 | no motor parameter ID starts with T, so TDEV and TAXI never reach the SMP_/GMP_ lookup |
| SerialDispatch.Decode | Software/Pico/Controller/StageDriverController/SerialComm.cpp:68-77 | fewer than five bytes are refused; every request names IDs within their lists |
| SerialDispatch.Dispatch | Software/Pico/Controller/StageDriverController/SerialComm.cpp:81-406 | the prefix chain yields only requests whose ID indices are in range |
| SerialDispatch.DispatchTables | Software/Pico/Controller/StageDriverController/SerialComm.cpp:170-297 | the table commands yield only in-range requests |
| SerialDispatch.DispatchBoard | Software/Pico/Controller/StageDriverController/SerialComm.cpp:302-406 | the board commands and queries yield only in-range requests |
| SerialDispatch.FindId | Software/Pico/Controller/StageDriverController/SerialComm.cpp:134-136 | the lookup loop finds an entry exactly when IdFrom does, and the same one |
| SerialDispatch.ParseLine | Software/Pico/Controller/StageDriverController/SerialComm.cpp:68-406 | the request acted on is exactly Decode of the bytes read |
| SerialDispatch.ParseMotion | Software/Pico/Controller/StageDriverController/SerialComm.cpp:81-166 | the motion-command comparisons yield exactly Dispatch |
| SerialDispatch.ParseTables | Software/Pico/Controller/StageDriverController/SerialComm.cpp:170-297 | the table comparisons yield exactly DispatchTables |
| SerialDispatch.ParseBoard | Software/Pico/Controller/StageDriverController/SerialComm.cpp:302-406 | the board comparisons yield exactly DispatchBoard |
| SerialDispatch.Line1Scans | Software/Pico/Controller/StageDriverController/SerialComm.cpp:108 | sscanf with "KEY%hhi" reads the board back from its line |
| SerialDispatch.Line2Scans | Software/Pico/Controller/StageDriverController/SerialComm.cpp:82 | sscanf with "KEY%hhi,%d" (or ",%hhu") reads board and value back |
| SerialDispatch.Line3Scans | Software/Pico/Controller/StageDriverController/SerialComm.cpp:343 | sscanf with "SMC_DREG%hhi,%hhu,%i" reads board, address and value back |
| SerialDispatch.Dispatched | Software/Pico/Controller/StageDriverController/SerialComm.cpp:68-77 | a line of at least five characters with no NUL goes through the prefix comparisons whole |
| SerialDispatch.Wire1 | Software/Pico/Controller/StageDriverController/SerialComm.cpp:107-111 | a one-argument line is dispatched whole, starts with its key and scans back |
| SerialDispatch.Wire2 | Software/Pico/Controller/StageDriverController/SerialComm.cpp:81-85 | a two-argument line is dispatched whole, starts with its key and scans back |
| SerialDispatch.Wire3 | Software/Pico/Controller/StageDriverController/SerialComm.cpp:342-345 | an SMC_DREG line is dispatched whole, starts with its key and scans back |
| SerialDispatch.DecodeMovePos | Software/Pico/Controller/StageDriverController/SerialComm.cpp:81-91 | "SMC_MPOS<b>,<v>" decodes to a move of board b to v |
| SerialDispatch.DecodeMoveVel | Software/Pico/Controller/StageDriverController/SerialComm.cpp:94-104 | "SMC_MVEL<b>,<v>" decodes to a velocity command |
| SerialDispatch.DecodeGetFlags | Software/Pico/Controller/StageDriverController/SerialComm.cpp:107-117 | "GMC_STAT<b>" decodes to a status-flags query |
| SerialDispatch.DecodeGetReached | Software/Pico/Controller/StageDriverController/SerialComm.cpp:120-130 | "GMC_POSR<b>" decodes to a motion-done query |
| SerialDispatch.DecodeSetStatus | Software/Pico/Controller/StageDriverController/SerialComm.cpp:133-147 | "SMS_<ID><b>,<v>" decodes to a status write of that ID's index |
| SerialDispatch.DecodeGetStatus | Software/Pico/Controller/StageDriverController/SerialComm.cpp:151-166 | "GMS_<ID><b>" decodes to a status read of that ID's index |
| SerialDispatch.DecodeSetDevice | Software/Pico/Controller/StageDriverController/SerialComm.cpp:170-180 | "SMP_TDEV<b>,<v>" decodes to a device-type write |
| SerialDispatch.DecodeGetDevice | Software/Pico/Controller/StageDriverController/SerialComm.cpp:182-193 | "GMP_TDEV<b>" decodes to a device-type read |
| SerialDispatch.DecodeSetAxis | Software/Pico/Controller/StageDriverController/SerialComm.cpp:195-205 | "SMP_TAXI<b>,<v>" decodes to an axis-type write |
| SerialDispatch.DecodeGetAxis | Software/Pico/Controller/StageDriverController/SerialComm.cpp:207-218 | "GMP_TAXI<b>" decodes to an axis-type read |
| SerialDispatch.DecodeSetMotorParam | Software/Pico/Controller/StageDriverController/SerialComm.cpp:220-235 | "SMP_<ID><b>,<v>" decodes to a motor-parameter write of that ID's index |
| SerialDispatch.DecodeGetMotorParam | Software/Pico/Controller/StageDriverController/SerialComm.cpp:239-255 | "GMP_<ID><b>" decodes to a motor-parameter read |
| SerialDispatch.DecodeSetRemoteParam | Software/Pico/Controller/StageDriverController/SerialComm.cpp:259-277 | "SRP_<ID><b>,<v>" decodes to a remote-parameter write |
| SerialDispatch.DecodeGetRemoteParam | Software/Pico/Controller/StageDriverController/SerialComm.cpp:281-297 | "GRP_<ID><b>" decodes to a remote-parameter read |
| SerialDispatch.DecodeConfigBoard | Software/Pico/Controller/StageDriverController/SerialComm.cpp:302-312 | "SMC_CONF<b>" decodes to a board configuration |
| SerialDispatch.DecodeClearRegs | Software/Pico/Controller/StageDriverController/SerialComm.cpp:316-325 | "SMC_SCLR<b>" decodes to a status-register clear |
| SerialDispatch.DecodeHome | Software/Pico/Controller/StageDriverController/SerialComm.cpp:328-337 | "SMC_HOME<b>" decodes to a homing start |
| SerialDispatch.DecodeSetReg | Software/Pico/Controller/StageDriverController/SerialComm.cpp:342-350 | "SMC_DREG<b>,<a>,<v>" decodes to a raw register write |
| SerialDispatch.DecodeGetReg | Software/Pico/Controller/StageDriverController/SerialComm.cpp:354-363 | "GMC_DREG<b>,<a>" decodes to a raw register read |
| SerialDispatch.DecodeIdentify | Software/Pico/Controller/StageDriverController/SerialComm.cpp:367-370 | "*IDN?" decodes to the identification query |
| SerialDispatch.DecodeNumDevices | Software/Pico/Controller/StageDriverController/SerialComm.cpp:374-378 | "GPC_NDEV" decodes to the device-count query |
| SerialDispatch.DecodeGetVersion | Software/Pico/Controller/StageDriverController/SerialComm.cpp:382-386 | "GPC_VERS" decodes to the version query |
| SerialDispatch.DecodeErrorQuery | Software/Pico/Controller/StageDriverController/SerialComm.cpp:390-393 | "GPC_EMSG" decodes to the error-message query |
| SerialDispatch.DecodeSaveFlash | Software/Pico/Controller/StageDriverController/SerialComm.cpp:397-401 | "SPC_SAFL" decodes to the flash save |
| SerialDispatch.DecodeEncode | Software/Pico/Controller/StageDriverController/SerialComm.cpp:81-401 | every command a host can write decodes to itself: the prefix chain and the formats agree |
| SerialDispatch.EncodeInjective | Software/Pico/Controller/StageDriverController/SerialComm.cpp:81-401 | distinct requests are written as distinct lines |
| SerialDispatch.StopsAtNul | Software/Pico/Controller/StageDriverController/SerialComm.cpp:70 | bytes after the first NUL are ignored |
| SerialDispatch.UnknownCommand | Software/Pico/Controller/StageDriverController/SerialComm.cpp:405-406 | a line that no prefix leads is an unrecognized command |
| SerialDispatch.BadHomeFormat | Software/Pico/Controller/StageDriverController/SerialComm.cpp:328-332 | an SMC_HOME line whose board does not scan is refused with that command's message |
| SerialDispatch.KeyAloneFails | Software/Pico/Controller/StageDriverController/SerialComm.cpp:82 | a key without its board number never scans |
| SerialDispatch.UnknownMotorParam | Software/Pico/Controller/StageDriverController/SerialComm.cpp:233-234 | SMP_ with an unknown ID is refused with the whole line in the message |
| SerialDispatch.UnknownRemoteParam | Software/Pico/Controller/StageDriverController/SerialComm.cpp:275-276 | SRP_ with an unknown ID is refused with the whole line in the message |
| SerialDispatch.UnknownStatus | Software/Pico/Controller/StageDriverController/SerialComm.cpp:146 | SMS_ with an unknown ID is refused with "Unrecognized SMS_ parameter" |
| SerialDispatch.CodeScans | Software/Pico/Controller/StageDriverController/SerialComm.cpp:463-467 | a host reads the code of an "ERROR=<code>" reply back |
| SerialDispatch.AnswerScans | Software/Pico/Controller/StageDriverController/SerialComm.cpp:113-114 | a host reads board and value of an accepted query's reply back |
| SerialDispatch.AnswerIsCode | Software/Pico/Controller/StageDriverController/SerialComm.cpp:112-114 | a reply is an error code exactly when the component refused |
| SerialDispatch.Sections | Software/Pico/Controller/StageDriverController/SerialComm.cpp:479-502 | the printed parts are empty exactly when no flag is up, and come in the order serial, params, motors, remote |
| SerialDispatch.ErrorLineClear | Software/Pico/Controller/StageDriverController/SerialComm.cpp:504-505 | "PC_EMSG=No error" is printed exactly when no component's flag is up |
| SerialDispatch.ErrorLineSerialFirst | Software/Pico/Controller/StageDriverController/SerialComm.cpp:481-485 | a pending serial error is printed first, right after the tag |
| SerialDispatch.JoinedAppend | Software/Pico/Controller/StageDriverController/SerialComm.cpp:486-502 | each further part is preceded by "; " |
| HostLink.SerialComm.constructor | Software/Pico/Controller/StageDriverController/SerialComm.cpp:33-42 | the interpreter starts with no error, no output and its timer at 0 |
| HostLink.SerialComm.SetErrorMsg | Software/Pico/Controller/StageDriverController/SerialComm.cpp:436-441 | first message wins until printed |
| HostLink.SerialComm.PrintErrorMsg | Software/Pico/Controller/StageDriverController/SerialComm.cpp:448-456 | prints and clears the pending message exactly when one is pending |
| HostLink.SerialComm.ReportErrorCode | Software/Pico/Controller/StageDriverController/SerialComm.cpp:463-467 | exactly the line "ERROR=<code>" is appended to the output |
| HostLink.SerialComm.CheckRemoteControl | Software/Pico/Controller/StageDriverController/SerialComm.cpp:421-429 | ERR_Serial with "Motor is under remote control" exactly when the board is under remote control, otherwise ERR_None and no change |
| HostLink.SerialComm.CheckSerialCommand | Software/Pico/Controller/StageDriverController/SerialComm.cpp:49-414 | within the interval nothing changes; with nothing available only the timer restarts; otherwise the decoded line is carried out, and the timer restarts only for an unrecognized command |
| HostLink.SerialComm.Execute | Software/Pico/Controller/StageDriverController/SerialComm.cpp:81-406 | the request is carried out as Did prescribes; only an unrecognized command resets the timer |
| HostLink.SerialComm.ExecMotors | Software/Pico/Controller/StageDriverController/SerialComm.cpp:81-166 | a motion or status request is carried out as MotorsDid prescribes |
| HostLink.SerialComm.ExecTables | Software/Pico/Controller/StageDriverController/SerialComm.cpp:170-326 | a table or configuration request is carried out as TablesDid prescribes |
| HostLink.SerialComm.ExecHost | Software/Pico/Controller/StageDriverController/SerialComm.cpp:367-406 | identification, count, version, error query, flash save, refusal and unknown commands as HostDid prescribes |
| HostLink.SerialComm.ExecSetStatus | Software/Pico/Controller/StageDriverController/SerialComm.cpp:133-147 | SMS_: ENAB on board -1 sweeps all boards, anything else is one board's SetStatusValue, with its code printed |
| HostLink.SerialComm.Reject | Software/Pico/Controller/StageDriverController/SerialComm.cpp:138-139 | the message is latched, "ERROR=-1" printed, nothing else changes |
| HostLink.SerialComm.Unknown | Software/Pico/Controller/StageDriverController/SerialComm.cpp:405-411 | "Unrecognized command" is latched and refused, and the timer restarts |
| HostLink.SerialComm.Say | Software/Pico/Controller/StageDriverController/SerialComm.cpp:367-370 | exactly one fixed line is printed, nothing else changes |
| HostLink.SerialComm.ExecBoard | Software/Pico/Controller/StageDriverController/SerialComm.cpp:81-91 | a guarded command on a remote-controlled board is refused; otherwise Motors carries it out and its code is printed |
| HostLink.SerialComm.RunBoard | Software/Pico/Controller/StageDriverController/SerialComm.cpp:87 | the Motors call's code and the board's new state are the command's Orchestrator outcome; an inactive board gives ERR_Motor |
| HostLink.SerialComm.RunGoTo | Software/Pico/Controller/StageDriverController/SerialComm.cpp:87 | Motors::MoveToPos with the velocity set: the board changes exactly as Orchestrator.MoveTo |
| HostLink.SerialComm.RunDrive | Software/Pico/Controller/StageDriverController/SerialComm.cpp:100 | Motors::MoveAtVel: the board changes exactly as Orchestrator.MoveVel |
| HostLink.SerialComm.RunSeek | Software/Pico/Controller/StageDriverController/SerialComm.cpp:334 | Motors::StartHoming: the board changes exactly as Orchestrator.Home |
| HostLink.SerialComm.RunPut | Software/Pico/Controller/StageDriverController/SerialComm.cpp:141 | Motors::SetStatusValue of one board: the board changes exactly as the driver's SetStatusValue |
| HostLink.SerialComm.RunPoke | Software/Pico/Controller/StageDriverController/SerialComm.cpp:347 | Motors::SetRegisterValue: a raw write on an active board |
| HostLink.SerialComm.ExecEnableAll | Software/Pico/Controller/StageDriverController/SerialComm.cpp:140-142 | SMS_ENAB-1: the axes become Orchestrator.EnableFrom over all boards and its code is printed |
| HostLink.SerialComm.ExecGetFlags | Software/Pico/Controller/StageDriverController/SerialComm.cpp:107-117 | GMC_STAT: an inactive board prints ERROR; an active one prints "MC_STAT<b>=<flags>" of AxisDriver.StatusFlags |
| HostLink.SerialComm.ExecGetReached | Software/Pico/Controller/StageDriverController/SerialComm.cpp:120-130 | GMC_POSR: prints whether the board, or every active board for -1, has stopped; nothing else changes |
| HostLink.SerialComm.ReachedAll | Software/Pico/Controller/StageDriverController/Motors.cpp:414-421 | GMC_POSR-1 prints 1 exactly when no active board moves or searches |
| HostLink.SerialComm.ReachedOne | Software/Pico/Controller/StageDriverController/Motors.cpp:422-430 | GMC_POSR<b>: an inactive board prints ERROR and latches "Inactive board number"; an active one prints its own state |
| HostLink.SerialComm.ExecGetStatus | Software/Pico/Controller/StageDriverController/SerialComm.cpp:151-166 | GMS_: PULL prints EMAX minus the tries left; any other ID prints the driver's GetStatusValue; an inactive board prints ERROR |
| HostLink.SerialComm.ExecGetReg | Software/Pico/Controller/StageDriverController/SerialComm.cpp:354-363 | GMC_DREG: an active board prints its register, an inactive one ERROR |
| HostLink.SerialComm.Reply | Software/Pico/Controller/StageDriverController/SerialComm.cpp:187-189 | exactly the reply line for the entry, or the code when refused |
| HostLink.SerialComm.ExecGetDevice | Software/Pico/Controller/StageDriverController/SerialComm.cpp:182-193 | GMP_TDEV: the board's device type, or ERROR and "Invalid board number" |
| HostLink.SerialComm.ExecGetAxis | Software/Pico/Controller/StageDriverController/SerialComm.cpp:207-218 | GMP_TAXI: the board's axis type, or ERROR and "Invalid board number" |
| HostLink.SerialComm.ExecGetMotorParam | Software/Pico/Controller/StageDriverController/SerialComm.cpp:239-255 | GMP_<ID>: the stored motor parameter, or ERROR |
| HostLink.SerialComm.ExecGetRemoteParam | Software/Pico/Controller/StageDriverController/SerialComm.cpp:281-297 | GRP_<ID>: the stored remote parameter, or ERROR |
| HostLink.SerialComm.ExecSetDevice | Software/Pico/Controller/StageDriverController/SerialComm.cpp:170-180 | SMP_TDEV: a type 0..2 for a valid board is stored; otherwise the matching error is latched and ERR_Parameter printed |
| HostLink.SerialComm.ExecSetAxis | Software/Pico/Controller/StageDriverController/SerialComm.cpp:195-205 | SMP_TAXI: a type 0..4 for a valid board is stored; otherwise the matching error is latched |
| HostLink.SerialComm.ExecSetMotorParam | Software/Pico/Controller/StageDriverController/SerialComm.cpp:220-235 | SMP_<ID>: any value of a valid board is stored in that cell, nothing else changes |
| HostLink.SerialComm.ExecSaveFlash | Software/Pico/Controller/StageDriverController/SerialComm.cpp:397-401 | SPC_SAFL: the flash image becomes the tables' image; a failed commit latches its message and prints ERR_Parameter |
| HostLink.SerialComm.ExecClearRegs | Software/Pico/Controller/StageDriverController/SerialComm.cpp:316-325 | SMC_SCLR: board -1 or an active board is accepted, anything else refused |
| HostLink.SerialComm.ExecSetRemoteParam | Software/Pico/Controller/StageDriverController/SerialComm.cpp:259-277 | SRP_: SendRemoteCommand first; only when the remote accepted is the value stored |
| HostLink.SerialComm.SendAndStore | Software/Pico/Controller/StageDriverController/SerialComm.cpp:268-271 | the relay state after both steps is RemoteSet: the send, then the store on success |
| HostLink.SerialComm.StoreRemote | Software/Pico/Controller/StageDriverController/SerialComm.cpp:270 | SetRemoteParams as seen in the relay state |
| HostLink.SerialComm.ExecConfigBoard | Software/Pico/Controller/StageDriverController/SerialComm.cpp:302-312 | SMC_CONF: Motors::ConfigBoard, then RemoteComm::Config only when that succeeded; the last code is printed |
| HostLink.SerialComm.ConfigFinish | Software/Pico/Controller/StageDriverController/SerialComm.cpp:308-311 | a failed motor configuration prints its code; otherwise RemoteComm::Config runs and its code is printed |
| HostLink.SerialComm.ConfigRemote | Software/Pico/Controller/StageDriverController/SerialComm.cpp:309-310 | the relay state becomes RemoteRelay.ConfigTables and its code is printed |
| HostLink.SerialComm.ConfigMotors | Software/Pico/Controller/StageDriverController/Motors.cpp:85-118 | Motors::ConfigBoard as seen in the relay state; an inactive board raises "Invalid motor number" |
| HostLink.SerialComm.ConfigInactive | Software/Pico/Controller/StageDriverController/Motors.cpp:113-116 | an inactive board is refused with a general "Invalid motor number" message |
| HostLink.SerialComm.ConfigFleet | Software/Pico/Controller/StageDriverController/Motors.cpp:90-97 | board -1 sweeps the active boards; the general slot is unchanged |
| HostLink.SerialComm.ConfigOne | Software/Pico/Controller/StageDriverController/Motors.cpp:98-112 | one active board is configured alone |
| HostLink.SerialComm.ReportErrorMsg | Software/Pico/Controller/StageDriverController/SerialComm.cpp:474-507 | "PC_EMSG=" then each pending message with its tag, "; " between two, or "No error"; every printed flag is cleared |
| HostLink.SerialComm.Gather | Software/Pico/Controller/StageDriverController/SerialComm.cpp:481-502 | the body is the joined pending parts and every flag is cleared |
| HostLink.SerialComm.HostParts | Software/Pico/Controller/StageDriverController/SerialComm.cpp:481-491 | the serial and parameter parts, each only when pending |
| HostLink.SerialComm.DeviceParts | Software/Pico/Controller/StageDriverController/SerialComm.cpp:492-502 | the motors and remote parts, each only when pending |
| HostLink.SerialComm.SerialPart | Software/Pico/Controller/StageDriverController/SerialComm.cpp:481-485 | "Serial: " and the interpreter's message when pending; its flag is cleared |
| HostLink.SerialComm.ParamsPart | Software/Pico/Controller/StageDriverController/SerialComm.cpp:486-491 | "Params: " and the store's message when pending; its flag is cleared |
| HostLink.SerialComm.MotorsPart | Software/Pico/Controller/StageDriverController/SerialComm.cpp:492-497 | "Motors: " and Orchestrator.Report of the motors' slots when pending; the flags are cleared |
| HostLink.SerialComm.RemotePart | Software/Pico/Controller/StageDriverController/SerialComm.cpp:498-502 | "Remote: " and the link's message when pending; its flag is cleared |
| HostLink.ConfigSteps | Software/Pico/Controller/StageDriverController/SerialComm.cpp:307-310 | the SMC_CONF result is the motor configuration followed, on success, by the remote configuration |
| Startup.BootIsConfigAll | Software/Pico/Controller/StageDriverController/Parameters.cpp:83-92 | start-up configuration does what SMC_CONF-1 does, except that any failure becomes ERR_Parameter and is latched in the parameter store |
| Startup.BootSucceeds | Software/Pico/Controller/StageDriverController/Parameters.cpp:83-93 | Config succeeds exactly when every active board configures and every active board's remote row is acceptable |
| Startup.DefaultBootRefused | Software/Pico/Controller/StageDriverController/Parameters.cpp:73-92 | with the built-in defaults (RMXV 0, remote JMAX 1000) and an active board, Config(CONFIG_DEFAULT) always ends in ERR_Parameter |
| Startup.Config | Software/Pico/Controller/StageDriverController/Parameters.cpp:49-94 | a flash image of another version marks every board MOTOR_NONE and fails; otherwise the loaded or default tables are configured as BootConfig prescribes |
| Startup.Load | Software/Pico/Controller/StageDriverController/Parameters.cpp:55-81 | the table load succeeds exactly when the image version matches (or defaults are used); a mismatch marks every board MOTOR_NONE |
| Startup.ConfigureAll | Software/Pico/Controller/StageDriverController/Parameters.cpp:83-93 | the boards, then the remote rows: the relay state becomes BootConfig |
| Startup.ConfigureBoards | Software/Pico/Controller/StageDriverController/Parameters.cpp:83-86 | Motors::ConfigBoard(-1) and, on failure, "Could not configure motors" |
| Startup.RunBoards | Software/Pico/Controller/StageDriverController/Parameters.cpp:83 | Motors::ConfigBoard(-1) as HostLink.MotorsConfig |
| Startup.ConfigureRemote | Software/Pico/Controller/StageDriverController/Parameters.cpp:88-91 | RemoteComm::Config(-1) and, on failure, "Could not configure remote" |
| MovingAverageFilter.InitValid | Software/Pico/Remote/StageDriverRemote/MovingAverage.cpp:14-18 | the constructed window keeps the filter invariant and its mean is 0 |
| MovingAverageFilter.AddValid | Software/Pico/Remote/StageDriverRemote/MovingAverage.cpp:35-42 | addNewValue keeps the invariant; it writes exactly the slot after the old head, which becomes the head, and the exact total changes by the new value minus the old slot value |
| MovingAverageFilter.AverageBound | Software/Pico/Remote/StageDriverRemote/MovingAverage.cpp:49-52 | the mean is the floor of the running sum over the window size and stays below 2^(16-sizeBase) |
| MovingAverageFilter.NoWrap | Software/Pico/Remote/StageDriverRemote/MovingAverage.cpp:35-52 | when every slot is below 2^(16-sizeBase) the uint16 sum never wraps: it is the exact total and the mean is the floor of the exact mean |
| MovingAverageFilter.AdcSamplesNoWrap | Software/Pico/Remote/StageDriverRemote/MovingAverage.cpp:35-42 | with 10-bit ADC samples and 2^6 slots the running sum is the exact total |
| MovingAverageFilter.FeedLatest | Software/Pico/Remote/StageDriverRemote/MovingAverage.cpp:35-42 | after adding values to a fresh window, the slot k behind the head holds the k-th latest value |
| MovingAverageFilter.FeedLatestFrom | Software/Pico/Remote/StageDriverRemote/MovingAverage.cpp:35-42 | the same from any window that already holds the earlier values in that order |
| MovingAverageFilter.SteadyInput | Software/Pico/Remote/StageDriverRemote/MovingAverage.cpp:35-52 | after at least window-size copies of v (and no wrap), the mean is v |
| MovingAverageFilter.SteadyRing | Software/Pico/Remote/StageDriverRemote/MovingAverage.cpp:49-52 | a window whose latest window-size values are all v has mean v |
| MovingAverageFilter.FilledWindow | Software/Pico/Remote/StageDriverRemote/MovingAverage.cpp:49-52 | a window with every slot v has mean v when the total does not wrap |
| MovingAverageFilter.SteadySlots | Software/Pico/Remote/StageDriverRemote/MovingAverage.cpp:35-42 | a ring holding only its latest values, all v, holds only v |
| MovingAverageFilter.SumUpdate | Software/Pico/Remote/StageDriverRemote/MovingAverage.cpp:38 | replacing one slot changes the total by the difference |
| MovingAverageFilter.ShiftMod | Software/Pico/Remote/StageDriverRemote/MovingAverage.cpp:38 | taking the uint16 sum before or after the replacement gives the same result |
| MovingAverageFilter.NextSlot | Software/Pico/Remote/StageDriverRemote/MovingAverage.cpp:37 | (head + 1) % size is the next slot, wrapping to 0 |
| MovingAverageFilter.WindowSpan | Software/Pico/Remote/StageDriverRemote/MovingAverage.cpp:16 | the window size times the largest unwrapped slot value is 2^16 |
| MovingAverageFilter.MovingAverage.constructor | Software/Pico/Remote/StageDriverRemote/MovingAverage.cpp:14-18 | 2^sizeBase zero slots, head 0, sum 0 |
| MovingAverageFilter.MovingAverage.AddNewValue | Software/Pico/Remote/StageDriverRemote/MovingAverage.cpp:35-42 | the fields become exactly Add of the old window and the sample, and the invariant is kept |
| MovingAverageFilter.MovingAverage.CurrentValue | Software/Pico/Remote/StageDriverRemote/MovingAverage.cpp:49-52 | the value is the window's Average: the running sum shifted right by sizeBase |
| SensAdjustInput.WrapInt16 | Software/Pico/Remote/StageDriverRemote/SensAdjust.cpp:90 | the int16 cast: the result is in range, and a value already in range is unchanged |
| SensAdjustInput.NoPinFullScale | Software/Pico/Remote/StageDriverRemote/SensAdjust.cpp:78-80 | without a pin the factor is 1024, nothing is reported and nothing stored |
| SensAdjustInput.FactorRange | Software/Pico/Remote/StageDriverRemote/SensAdjust.cpp:82-86 | with a pin the factor lies in 0..1024: the average, or its complement for a negative direction; the two directions add up to 1024 |
| SensAdjustInput.ChangeDetected | Software/Pico/Remote/StageDriverRemote/SensAdjust.cpp:87-92 | a change is reported exactly when the average differs from the stored one, and then the raw average is stored |
| SensAdjustInput.SecondReadUnchanged | Software/Pico/Remote/StageDriverRemote/SensAdjust.cpp:76-94 | two calls without a new sample: the second reports no change and the same factor |
| SensAdjustInput.AverageFitsInt16 | Software/Pico/Remote/StageDriverRemote/SensAdjust.cpp:90 | a filter average always fits the int16 field |
| SensAdjustInput.SensAdjust.constructor | Software/Pico/Remote/StageDriverRemote/SensAdjust.h:38-40 | a fresh filter of 2^6 slots, the given pin and direction, lastADCValue 0 |
| SensAdjustInput.SensAdjust.Update | Software/Pico/Remote/StageDriverRemote/SensAdjust.cpp:66-69 | the filter becomes Add of its window and the ADC sample |
| SensAdjustInput.SensAdjust.GetUpdatedValue | Software/Pico/Remote/StageDriverRemote/SensAdjust.cpp:76-94 | the flag, the factor and the stored value are exactly SensAdjustInput.Updated |
| PositionDisplay.Display.constructor | Software/Pico/Remote/StageDriverRemote/Display.h:31 | four positions, all 0 |
| PositionDisplay.Display.SetPosition | Software/Pico/Remote/StageDriverRemote/Display.cpp:57-66 | a supported channel's position is replaced, any other channel changes nothing |
| PositionDisplay.Display.GetPosition | Software/Pico/Remote/StageDriverRemote/Display.cpp:73-77 | a supported channel's stored position, 0 otherwise |
| JoystickInput.DeadBand | Software/Pico/Remote/StageDriverRemote/JoystickAxis.cpp:89-97 | an ADC offset from the centre smaller than the centre margin gives velocity 0, whatever the maximum, direction and sensitivity |
| JoystickInput.CalibratedCentre | Software/Pico/Remote/StageDriverRemote/JoystickAxis.cpp:63-66 | right after updateCalibration, with the average unchanged, the reported velocity is 0 |
| JoystickInput.VelocityAtCentre | Software/Pico/Remote/StageDriverRemote/JoystickAxis.cpp:96-97 | a zero offset gives a zero velocity for every direction, maximum and sensitivity |
| JoystickInput.ScaleWithinUp | Software/Pico/Remote/StageDriverRemote/JoystickAxis.cpp:96-97 | a non-negative product divided by 1024 and multiplied by a factor of at most 1024 stays between 0 and the product |
| JoystickInput.ScaleWithinDown | Software/Pico/Remote/StageDriverRemote/JoystickAxis.cpp:96-97 | a negative product divided by 1024 and multiplied by a factor of at most 1024 stays between the product and 0 |
| JoystickInput.ScaleWithin | Software/Pico/Remote/StageDriverRemote/JoystickAxis.cpp:96-97 | the scaled intermediate has the sign of the product and is no larger in magnitude, so it is an int32_t |
| JoystickInput.ProductExact | Software/Pico/Remote/StageDriverRemote/JoystickAxis.cpp:96 | when 2*direction*maxValue*r fits in 32 bits the wrapped product is the exact one |
| JoystickInput.SignFollowsOffset | Software/Pico/Remote/StageDriverRemote/JoystickAxis.cpp:90-97 | with direction 1, a non-negative maximum, a factor in 0..1024 and no overflow, the velocity never has the opposite sign of the offset |
| JoystickInput.ScaledExact | Software/Pico/Remote/StageDriverRemote/JoystickAxis.cpp:96-97 | without overflow the second multiplication is exact: the result is the product divided by 1024, times the factor, divided by 1024, truncating toward zero |
| JoystickInput.ScaledOdd | Software/Pico/Remote/StageDriverRemote/JoystickAxis.cpp:96-97 | scaling a negated product gives the negated result when both fit in 32 bits |
| JoystickInput.DirectionNegates | Software/Pico/Remote/StageDriverRemote/JoystickAxis.cpp:49-56 | without overflow, direction -1 gives exactly the negated velocity of direction 1 |
| JoystickInput.OutputFits | Software/Pico/Remote/StageDriverRemote/JoystickAxis.cpp:96-97 | every reported velocity is an int32_t |
| JoystickInput.TruncDivOdd | Software/Pico/Remote/StageDriverRemote/JoystickAxis.cpp:96-97 | C's truncating division is odd in its dividend |
| JoystickInput.OverflowFlipsSign | Software/Pico/Remote/StageDriverRemote/JoystickAxis.cpp:96 | a maximum of 2^30 with offset 1 and full sensitivity wraps the 32-bit product, and the velocity comes out negative |
| JoystickInput.PolledSettles | Software/Pico/Remote/StageDriverRemote/JoystickAxis.cpp:99-104 | a second poll with the same average and factor reports no change and the same velocity |
| JoystickInput.JoystickAxis.constructor | Software/Pico/Remote/StageDriverRemote/JoystickAxis.cpp:19-22 | an axis starts with the initial settings and an empty 2^6-sample filter |
| JoystickInput.JoystickAxis.SetMaxValue | Software/Pico/Remote/StageDriverRemote/JoystickAxis.cpp:29-32 | only the maximum velocity changes |
| JoystickInput.JoystickAxis.SetCenterMargin | Software/Pico/Remote/StageDriverRemote/JoystickAxis.cpp:39-42 | only the centre margin changes |
| JoystickInput.JoystickAxis.SetDirection | Software/Pico/Remote/StageDriverRemote/JoystickAxis.cpp:49-56 | a direction of 1 or -1 is stored; any other value leaves the axis unchanged |
| JoystickInput.JoystickAxis.UpdateCalibration | Software/Pico/Remote/StageDriverRemote/JoystickAxis.cpp:63-66 | the current filter average becomes the centre; nothing else changes |
| JoystickInput.JoystickAxis.Update | Software/Pico/Remote/StageDriverRemote/JoystickAxis.cpp:73-77 | one sample is added to the axis filter |
| JoystickInput.JoystickAxis.GetUpdatedValue | Software/Pico/Remote/StageDriverRemote/JoystickAxis.cpp:84-105 | the velocity is the dead-banded, wrapped and scaled offset of the average; the flag says whether it differs from the last one, which it replaces; the sensitivity unit records its own change |
| JoystickInput.Joystick.constructor | Software/Pico/Remote/StageDriverRemote/Joystick.cpp:24-44 | channels 0 and 1 get fresh axes with initial settings, and no button is pressed |
| JoystickInput.Joystick.IsChannelPresent | Software/Pico/Remote/StageDriverRemote/Joystick.cpp:61-64 | a channel is present exactly when it has an axis (channels 0 and 1) |
| JoystickInput.Joystick.ButtonIsr | Software/Pico/Remote/StageDriverRemote/Joystick.cpp:71-82 | a press of the shared button flags channels 0 and 1 and no other |
| JoystickInput.Joystick.GetButtonPressed | Software/Pico/Remote/StageDriverRemote/Joystick.cpp:176-181 | a press is reported exactly for a supported channel with a button whose flag is set |
| JoystickInput.Joystick.ResetButtonPressed | Software/Pico/Remote/StageDriverRemote/Joystick.cpp:188-193 | clears only the flag of a supported channel with a button |
| JoystickInput.Joystick.SetMaxValue | Software/Pico/Remote/StageDriverRemote/Joystick.cpp:108-112 | only the named present axis's maximum changes; another channel changes nothing |
| JoystickInput.Joystick.SetCenterMargin | Software/Pico/Remote/StageDriverRemote/Joystick.cpp:119-123 | only the named present axis's margin changes; another channel changes nothing |
| JoystickInput.Joystick.SetDirection | Software/Pico/Remote/StageDriverRemote/Joystick.cpp:130-134 | only the named present axis's direction changes, as JoystickAxis.SetDirection does |
| JoystickInput.Joystick.UpdateCalibration | Software/Pico/Remote/StageDriverRemote/Joystick.cpp:141-145 | only the named present axis is recentred on its current average |
| JoystickInput.Joystick.Update | Software/Pico/Remote/StageDriverRemote/Joystick.cpp:152-157 | each axis filter takes its own sample; the axis settings do not change |
| JoystickInput.Joystick.GetUpdatedValue | Software/Pico/Remote/StageDriverRemote/Joystick.cpp:164-169 | a present axis polls as JoystickAxis.GetUpdatedValue; any other channel reports no change and changes nothing |
| EncoderInput.WrapShift | Software/Pico/Remote/StageDriverRemote/Encoders.cpp:135-141 | int32 wrap-around ignores whole multiples of 2^32 |
| EncoderInput.WrapBack | Software/Pico/Remote/StageDriverRemote/Encoders.cpp:135-140 | adding a wrapped difference back onto its base lands exactly on the int32 target, so lastEncPos catches up with the count |
| EncoderInput.ReadAccounting | Software/Pico/Remote/StageDriverRemote/Encoders.cpp:132-145 | an accepted read catches lastEncPos up with the count and reports the new accumulated position plus the reference; a rejected read changes nothing and reports the old position plus the reference, so its counts stay pending |
| EncoderInput.NoCountsNoChange | Software/Pico/Remote/StageDriverRemote/Encoders.cpp:135-144 | a read with no new counts reports no change |
| EncoderInput.NoCountChange | Software/Pico/Remote/StageDriverRemote/Encoders.cpp:136-137 | zero counts give a zero position change for every direction, step size and factor |
| EncoderInput.ReadSettled | Software/Pico/Remote/StageDriverRemote/Encoders.cpp:138-145 | a read whose scaled change is zero reports the accumulated position plus the reference and leaves the channel as it was |
| EncoderInput.ReadAfterRebase | Software/Pico/Remote/StageDriverRemote/Encoders.cpp:153-161 | after resetEncoderReference, a read with no new counts and the same factor reports exactly the displayed position and no change |
| EncoderInput.RebaseOf | Software/Pico/Remote/StageDriverRemote/Encoders.cpp:155-160 | the re-base is a read with a cleared reference, followed by the reference that maps its position onto the displayed one |
| EncoderInput.FitUpdate | Software/Pico/Remote/StageDriverRemote/Encoders.cpp:120-121 | replacing one channel by an int32 channel keeps every channel's fields int32 |
| EncoderInput.BankFits | Software/Pico/Remote/StageDriverRemote/Encoders.cpp:95-161 | setDirection, setStepSize, getChangedPosition and resetEncoderReference keep every channel's fields int32 |
| EncoderInput.Encoders.constructor | Software/Pico/Remote/StageDriverRemote/Encoders.cpp:27-58 | all four channels have an encoder and a button, start at the initial channel state and no button is pressed |
| EncoderInput.Encoders.IsChannelPresent | Software/Pico/Remote/StageDriverRemote/Encoders.cpp:85-88 | a channel is present exactly when it is 0..3 and has an encoder pin |
| EncoderInput.Encoders.SetDirection | Software/Pico/Remote/StageDriverRemote/Encoders.cpp:95-100 | a supported channel takes a direction of 1 or -1; any other channel or value changes nothing |
| EncoderInput.Encoders.SetStepSize | Software/Pico/Remote/StageDriverRemote/Encoders.cpp:107-111 | a supported channel takes the new step size; any other channel changes nothing |
| EncoderInput.Encoders.GetChangedPosition | Software/Pico/Remote/StageDriverRemote/Encoders.cpp:118-146 | an unsupported or absent channel reports no change and changes nothing; a present one reads the factor and applies the accounted read |
| EncoderInput.Encoders.ReadPresent | Software/Pico/Remote/StageDriverRemote/Encoders.cpp:135-145 | a present channel's read with a given factor reports and stores exactly what the accounted read prescribes; other channels are not touched |
| EncoderInput.Encoders.ResetEncoderReference | Software/Pico/Remote/StageDriverRemote/Encoders.cpp:153-161 | the channel is re-based on the position the display shows for it; an unsupported channel changes nothing |
| EncoderInput.Encoders.GetButtonPressed | Software/Pico/Remote/StageDriverRemote/Encoders.cpp:168-173 | a press is reported exactly for a supported channel with a button whose flag is set |
| EncoderInput.Encoders.ResetButtonPressed | Software/Pico/Remote/StageDriverRemote/Encoders.cpp:180-185 | clears only the flag of a supported channel with a button |
| EncoderInput.Encoders.ButtonIsr | Software/Pico/Remote/StageDriverRemote/Encoders.cpp:75-78 | a press flags its own channel and no other |
| ControllerLink.Decode | Software/Pico/Remote/StageDriverRemote/ControllerComm.cpp:106-173 | the first three characters pick the command; a picked command either scans both numbers of its full format, as an int8 channel and an int32 value, or is malformed; text matching no key is ignored |
| ControllerLink.ScanKey | Software/Pico/Remote/StageDriverRemote/ControllerComm.cpp:115-164 | two values scanned with "KEY%hhi=%i" are an int8 and an int32, and the text starts with the key |
| ControllerLink.LeadingOfKey | Software/Pico/Remote/StageDriverRemote/ControllerComm.cpp:114-163 | a text that starts with a full key is taken for that key |
| ControllerLink.DecodeSent | Software/Pico/Remote/StageDriverRemote/ControllerComm.cpp:106-173 | every command the controller sends as "KEY<ch>=<v>" is decoded as that key, channel and value |
| ControllerLink.LeadOnlyMalformed | Software/Pico/Remote/StageDriverRemote/ControllerComm.cpp:123-125 | only three characters are compared, so "ENAX1=1" is taken for ENAB, fails its scan and returns -1 |
| ControllerLink.Rebase | Software/Pico/Remote/StageDriverRemote/Encoders.cpp:153-161 | re-basing one encoder channel keeps the unit's fields in range |
| ControllerLink.TunedSticks | Software/Pico/Remote/StageDriverRemote/ControllerComm.cpp:133-150 | JMAX and JDIR replace only the named stick and recentre it on its current average |
| ControllerLink.Apply | Software/Pico/Remote/StageDriverRemote/ControllerComm.cpp:114-172 | applying any decoded command keeps the unit's fields in range |
| ControllerLink.ApplyAll | Software/Pico/Remote/StageDriverRemote/ControllerComm.cpp:89-94 | applying the tokens of a frame in order keeps the unit's fields in range |
| ControllerLink.Receive | Software/Pico/Remote/StageDriverRemote/ControllerComm.cpp:57-99 | a receive step keeps the unit's fields in range |
| ControllerLink.ReportChannel | Software/Pico/Remote/StageDriverRemote/ControllerComm.cpp:196-204 | reporting one channel changes neither flag nor the transmitted frames |
| ControllerLink.Reports | Software/Pico/Remote/StageDriverRemote/ControllerComm.cpp:195-205 | reporting the channels changes neither flag nor the transmitted frames |
| ControllerLink.SendUpdates | Software/Pico/Remote/StageDriverRemote/ControllerComm.cpp:180-213 | a send step keeps the unit's fields in range |
| ControllerLink.Transmitted | Software/Pico/Remote/StageDriverRemote/ControllerComm.cpp:206-211 | framing the report keeps the unit's fields in range |
| ControllerLink.ModeChannel | Software/Pico/Remote/StageDriverRemote/ControllerComm.cpp:246-281 | the mode check of one channel leaves the remote-control flags as the controller set them and touches no other channel |
| ControllerLink.Switched | Software/Pico/Remote/StageDriverRemote/ControllerComm.cpp:261-276 | a mode switch changes only the pressed channel's joystick flag, and neither the remote-control flags, the buttons nor the press times |
| ControllerLink.ModeUpTo | Software/Pico/Remote/StageDriverRemote/ControllerComm.cpp:246-282 | the channel loop keeps the unit's fields in range |
| ControllerLink.ModeCheck | Software/Pico/Remote/StageDriverRemote/ControllerComm.cpp:233-285 | the mode check keeps the unit's fields in range |
| ControllerLink.DisableOnly | Software/Pico/Remote/StageDriverRemote/ControllerComm.cpp:123-130 | ENAB 0 clears the channel's remote-control flag and changes nothing else; an unsupported channel changes nothing |
| ControllerLink.EnableHandsOver | Software/Pico/Remote/StageDriverRemote/ControllerComm.cpp:123-130 | ENAB with a non-zero value sets the flag and re-bases the encoder, so that the next read with the same count reports the displayed position and no change, and an encoder-controlled channel sends nothing back |
| ControllerLink.ReportChannelGranted | Software/Pico/Remote/StageDriverRemote/ControllerComm.cpp:196-204 | every token one channel reports is a velocity or position of a channel the controller handed over |
| ControllerLink.TokenGranted | Software/Pico/Remote/StageDriverRemote/ControllerComm.cpp:200-203 | a VEL or POS token of a remote-controlled channel is one the report may send |
| ControllerLink.ReportsGranted | Software/Pico/Remote/StageDriverRemote/ControllerComm.cpp:195-205 | every token of the report speaks for a remote-controlled channel, in the mode it is in |
| ControllerLink.UpdateDelivered | Software/Pico/Remote/StageDriverRemote/ControllerComm.cpp:180-213 | an update that sends anything sends one frame, which the controller's receiver accepts and splits into exactly the reported tokens |
| ControllerLink.SentText | Software/Pico/Remote/StageDriverRemote/ControllerComm.cpp:200-207 | the buffer of ';'-terminated tokens with its last ';' overwritten is the ';'-joined tokens |
| ControllerLink.SendOf | Software/Pico/Remote/StageDriverRemote/ControllerComm.cpp:206-211 | without tokens nothing is sent and the interval goes on; otherwise one frame of the buffer without its last ';' is sent and the interval restarts |
| ControllerLink.ClaimPlain | Software/Pico/Remote/StageDriverRemote/ControllerComm.cpp:257 | "ACCREQ<b>" holds no separator |
| ControllerLink.ClaimDelivered | Software/Pico/Remote/StageDriverRemote/ControllerComm.cpp:256-259 | the access request is accepted by the controller as one claim on that channel |
| ControllerLink.ReceiveSingle | Software/Pico/Remote/StageDriverRemote/ControllerComm.cpp:84-86 | a frame of one command is applied and the receive interval does not restart |
| ControllerLink.ReceiveBatch | Software/Pico/Remote/StageDriverRemote/ControllerComm.cpp:87-97 | a frame of several ';'-joined commands applies each in order and restarts the interval |
| ControllerLink.CorruptFrameIgnored | Software/Pico/Remote/StageDriverRemote/ControllerComm.cpp:78-82 | a frame with one payload byte changed in transit is dropped and nothing changes |
| ControllerLink.JoystickTakesOver | Software/Pico/Remote/StageDriverRemote/ControllerComm.cpp:270-280 | a joystick press on an encoder-controlled channel past the debounce time switches it to joystick input and clears both buttons; the encoder is left as it was |
| ControllerLink.EncoderTakesOver | Software/Pico/Remote/StageDriverRemote/ControllerComm.cpp:261-280 | an encoder press on a joystick-controlled channel switches it to encoder input and re-bases the encoder on the displayed position |
| ControllerLink.ClaimRequested | Software/Pico/Remote/StageDriverRemote/ControllerComm.cpp:253-259 | a press on a channel not under remote control sends one access request and leaves the flag to the controller |
| ControllerLink.DebounceHolds | Software/Pico/Remote/StageDriverRemote/ControllerComm.cpp:253 | within the debounce time of the last action new presses stay pending and change nothing |
| ControllerLink.SharedButtonSwitchesBoth | Software/Pico/Remote/StageDriverRemote/Joystick.cpp:71-82 | the joystick button is shared by channels 0 and 1, so one press switches both encoder-controlled channels to joystick input |
| ControllerLink.ControllerComm.constructor | Software/Pico/Remote/StageDriverRemote/ControllerComm.h:25-26 | no channel starts under remote or joystick control, nothing has been sent and every interval starts at 0 |
| ControllerLink.ControllerComm.SendCommand | Software/Pico/Remote/StageDriverRemote/ControllerComm.cpp:220-226 | the C string is sent as one frame with its checksum |
| ControllerLink.ControllerComm.ResetEncoderReference | Software/Pico/Remote/StageDriverRemote/Encoders.cpp:153-161 | the channel is re-based on the displayed position |
| ControllerLink.ControllerComm.ProcessCommand | Software/Pico/Remote/StageDriverRemote/ControllerComm.cpp:106-173 | returns -1 exactly for a malformed command and 0 otherwise, and changes the unit as the decoded command prescribes |
| ControllerLink.ControllerComm.Perform | Software/Pico/Remote/StageDriverRemote/ControllerComm.cpp:118-169 | a command that scanned acts as Apply prescribes |
| ControllerLink.ControllerComm.SetJoystickMax | Software/Pico/Remote/StageDriverRemote/ControllerComm.cpp:137-138 | JMAX sets the axis maximum and recentres the axis |
| ControllerLink.ControllerComm.SetJoystickDirection | Software/Pico/Remote/StageDriverRemote/ControllerComm.cpp:147-148 | JDIR sets the axis direction and recentres the axis |
| ControllerLink.ControllerComm.SetEncoderStep | Software/Pico/Remote/StageDriverRemote/ControllerComm.cpp:157-158 | ESTP sets the encoder step size and re-bases the channel |
| ControllerLink.ControllerComm.SetEncoderDirection | Software/Pico/Remote/StageDriverRemote/ControllerComm.cpp:167-168 | EDIR sets the encoder direction and re-bases the channel |
| ControllerLink.ControllerComm.SetRemoteControlled | Software/Pico/Remote/StageDriverRemote/ControllerComm.cpp:127-128 | ENAB sets the flag to whether the value is non-zero and re-bases the encoder when enabling |
| ControllerLink.ControllerComm.ReceiveUpdatesFromController | Software/Pico/Remote/StageDriverRemote/ControllerComm.cpp:57-99 | the new state is the receive step of the old state on the received bytes |
| ControllerLink.ControllerComm.ReceivePayload | Software/Pico/Remote/StageDriverRemote/ControllerComm.cpp:84-97 | an accepted payload without ';' is one command; otherwise each token is processed and the interval restarts |
| ControllerLink.ControllerComm.ProcessTokens | Software/Pico/Remote/StageDriverRemote/ControllerComm.cpp:89-94 | the tokens are processed in order |
| ControllerLink.ControllerComm.SendUpdatesToController | Software/Pico/Remote/StageDriverRemote/ControllerComm.cpp:180-213 | the new state is the send step of the old state |
| ControllerLink.ControllerComm.SendReports | Software/Pico/Remote/StageDriverRemote/ControllerComm.cpp:194-211 | the channels are read and what they report is framed and sent |
| ControllerLink.ControllerComm.Flush | Software/Pico/Remote/StageDriverRemote/ControllerComm.cpp:206-211 | an empty buffer sends nothing; otherwise the frame without the last ';' is sent and the interval restarts |
| ControllerLink.ControllerComm.SendAt | Software/Pico/Remote/StageDriverRemote/ControllerComm.cpp:210-211 | one frame is appended and the send interval restarts |
| ControllerLink.ControllerComm.ReportAll | Software/Pico/Remote/StageDriverRemote/ControllerComm.cpp:194-205 | the buffer holds each channel's token followed by ';', in channel order, as the report prescribes |
| ControllerLink.ControllerComm.ReportChannelUpdate | Software/Pico/Remote/StageDriverRemote/ControllerComm.cpp:196-204 | one channel's piece and new state are those of ReportChannel |
| ControllerLink.ControllerComm.ReportVelocity | Software/Pico/Remote/StageDriverRemote/ControllerComm.cpp:197-200 | a joystick-controlled channel adds "VEL<idx>=<v>;" exactly when its velocity changed |
| ControllerLink.ControllerComm.PollStick | Software/Pico/Remote/StageDriverRemote/Joystick.cpp:164-169 | the axis is polled as JoystickAxis.GetUpdatedValue prescribes |
| ControllerLink.ControllerComm.ReportPosition | Software/Pico/Remote/StageDriverRemote/ControllerComm.cpp:201-203 | any other channel with an encoder adds "POS<idx>=<pos>;" exactly when its position changed |
| ControllerLink.ControllerComm.InputModeCheck | Software/Pico/Remote/StageDriverRemote/ControllerComm.cpp:233-285 | the new state is the mode check of the old state |
| ControllerLink.ControllerComm.ModeAll | Software/Pico/Remote/StageDriverRemote/ControllerComm.cpp:246-282 | every channel is checked in order |
| ControllerLink.ControllerComm.ModeChannelCheck | Software/Pico/Remote/StageDriverRemote/ControllerComm.cpp:248-281 | one channel is checked as ModeChannel prescribes |
| ControllerLink.ControllerComm.ModeAction | Software/Pico/Remote/StageDriverRemote/ControllerComm.cpp:256-280 | a press past the debounce time requests access, switches the mode and clears the buttons |
| ControllerLink.ControllerComm.RequestAccess | Software/Pico/Remote/StageDriverRemote/ControllerComm.cpp:256-259 | a channel not under remote control sends "ACCREQ<idx>" |
| ControllerLink.ControllerComm.ClearButtons | Software/Pico/Remote/StageDriverRemote/ControllerComm.cpp:278-280 | both buttons of the channel are reset and the time of the action kept |
| ControllerLink.ControllerComm.SwitchInputMode | Software/Pico/Remote/StageDriverRemote/ControllerComm.cpp:261-276 | the input mode is switched as the pressed button asks |

## Left out

- Text.ParseInteger: reads decimal digits only. The source's `%hhi` and `%i` conversions (Software/Pico/Controller/StageDriverController/SerialComm.cpp:82,95,108,121,171,183,196,208,303) also accept `0x` hexadecimal and leading-`0` octal. So a host command such as `SMC_MPOS0x1,5` addresses board 1 in the firmware but is a format error in the model. The remote unit's `%hhi=%i` scans are modelled the same way.
- SerialDispatch.IdFrom: the GMS_ and GRP_ loops (SerialComm.cpp:151 and 282) run `idx` up to MOTORS_NUM_PARAMS. The status list has 8 entries and the remote list 5, so the C code reads past their ends. The model's lookup stops at the real list length, so a key that matches no entry is reported as unknown.
- HostLink.SerialComm.Locked: checks that the board number is valid before looking up its remote-control flag. CheckRemoteControl (SerialComm.cpp:421-429) indexes `isRemoteControlled[board]` unchecked. Out of range, the model reports "not locked" where the C code reads whatever follows the array.
- AxisDriver.CheckErrorMessage: returns the full message text. TMC::CheckError formats into a 50-byte `msg` (TMC.cpp:890), and its longest DRVSTATUS messages do not fit. The overflow is not modelled.
- SerialDispatch.UnknownParameter: the message is the full text. In C, `sprintf` writes "Unrecognized parameter" plus a host line of up to 100 characters into the 100-byte `tmpStr` (SerialComm.cpp:233). A long line overflows that buffer, and the overflow is not modelled.
- Frame.ValidateChecksum: when no digits follow the '|', C compares the payload's checksum with an uninitialised byte. The model refuses such frames. Other uninitialised C locals are reached only on error paths. The model gives them 0 or false: AxisDriver.GetPos reports value 0 on its error path, and an unsupported encoder channel reports position 0.
- Motion.Motors.Store: a TMC method takes its board's entries of the Motors flag arrays as a value (`Slot`) and returns them, and Motors stores them back. The firmware has TMC write these entries through a pointer into Motors. The effect is the same, but the aliasing is not modelled.
- AxisDriver.EndHoming: the end of a homing run waits in busy loops for the chip's standstill and position flags. The model collapses each wait into the register values the chip finally returns (`Readings`).
- AxisDriver.GetStatusValue: the TEMP status value is read from `Readings.tempC`, an input. Reading the chip's temperature ADC and converting it to degrees uses floating point, which is not modelled.
- Orchestrator.CAbs: abs(INT32_MIN) is undefined in C. The model takes it to be INT32_MIN, the usual two's-complement result.
- ControllerLink.Apply: ENAB writes `isRemoteControlled[channel]` without checking the channel (ControllerComm.cpp:127). The model ignores an out-of-range channel. Every other callee checks its channel.
- JoystickInput.Joystick.IsChannelPresent: the firmware indexes `pins[channel]` unchecked. The model answers false for any channel other than 0 and 1. EncoderInput.Encoders.IsChannelPresent answers false outside 0 to 3 for the same reason.
- JoystickInput.Joystick.SetCenterMargin: modelled, but no caller in the firmware changes the margin from its default.
- MovingAverageFilter.MovingAverage.constructor: admits sizeBase 1 to 7. With 8, the firmware's uint8_t size is 0 (see above).
- Startup.Config: the flash image is the `eeprom` field of ParameterStore.Parameters, a sequence of words. The EEPROM library calls that read and commit it are not modelled.
- Interrupt service routines, repeating timers, `millis()`, `analogRead` and the PIO encoder counts are inputs to the methods, not concurrent events. The atomicity of the ISR flags with respect to the main loop is not modelled.
- UART and USB serial I/O is modelled as sequences of sent frames and as received byte strings. The `readBytesUntil` timeout, the `serial1Busy` guard, the FIFO sizes and the baud rates are not modelled. The text the debug macros print (D_print) is not modelled.
- The remote unit's drawing of positions on its display is not modelled. Only the stored positions are (`PositionDisplay.Display`).
- snprintf buffer limits on VEL/POS report lines are not modelled. Four tokens of at most 16 characters fit in the message buffer.
- The host-side clients, the build system and the files outside the controller's and remote unit's core are not part of this model.
