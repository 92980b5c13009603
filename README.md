# brickv core, modelled in Dafny

This project models the parts of Brick Viewer (brickv), the Tinkerforge desktop
application, whose behaviour can be stated without its GUI toolkit or its
network connection, and proves properties of them.

- **Bindings** (`wire_format.dfy`, `bindings.dfy`, one file per bricklet). The
  generated Python bindings of eight bricklets are modelled: Sound Pressure Level,
  Energy Monitor, Silent Stepper 2.0, Industrial Digital In 4 2.0, OLED 128x64,
  Barometer 2.0, Hall Effect 2.0 and Laser Range Finder. Each `send_request` call
  becomes a `Request` value holding its function id, its request format, its
  declared response length and its response format. The constructor's
  `response_expected`, `callback_formats` and `high_level_callbacks` tables are
  maps. `register_callback` is a method on a `Device` class. The lemmas show
  that:
  - every declared length is 8 header bytes plus the packed size of the format;
  - the `response_expected` flags agree with how each function is called;
  - setters send what their getters return.
- **Streamed getters** (`streams.dfy` and the two bricklet files). The methods
  `get_spectrum` and `get_waveform` read a stream of 30-value chunks. The
  low-level getter is an oracle: a sequence of responses, consumed one per call.
  Each loop is proved equal to a recursive reference function. Lemmas about that
  function state the in-sync result, the number of calls consumed, the 0xFFFF
  no-data case and when STREAM_OUT_OF_SYNC is raised.
- **Plugin lifecycle** (`plugin_base.dfy`). This covers `PluginBase`'s three
  states and its start/stop hooks, the error counter, and the clearing of the
  callback dictionary on destroy.
- **Main window** (`mainwindow.dfy`). It models four pieces:
  - the auto-reconnect throttle of `cb_disconnected`;
  - the most-recently-used host list of `cb_connected`;
  - `do_authenticate`;
  - `tab_for_uid`, and the device-info invalidation and classification of
    `cb_enumerate`.
- **Plot bookkeeping** (`plot_widget.dfy`). It models `Plot`'s per-curve x/y/jump
  lists, their extrema, the window trimming of `add_data`, and `set_data`,
  `show_curve` and `clear_graph`. It also models `CurveValueWrapper` and the
  `PlotWidget.stop` setter. Values are `real`.
- **Remote Switch Bricklet 2.0 plugin** (`remote_switch_v2.dfy`). It models the
  5-bit house/receiver code and its check boxes, the visibility rule of the type
  combo box, and the requests each button sends.
- **Mobile internet script** (`settings_mobile_internet.dfy`). The RED Brick's
  `settings_mobile_internet.py` is modelled in three parts:
  - the REFRESH action, with its lsusb parser and its configuration parser;
  - `get_DNS`;
  - the CONNECT action, with its command and configuration builder and its exit
    codes.

  Python 2 string operations (`strip`, `split`, `splitlines`, `readlines`,
  `replace`, the `\b...\b` case-insensitive regular expression) are written out
  as functions. The main result, `ConfigurationRoundTrip`, states that what
  CONNECT writes is read back by REFRESH.

Command results, file contents, the clock and the widget state are parameters of
the model.

## Model

| member | source | states |
|---|---|---|
| Bindings.AfterRegister | src/brickv/bindings/bricklet_sound_pressure_level.py:486-493 | After register_callback(id, f): with f set, id maps to f; with None, a popping binding drops id and the laser range finder stores None; every other id keeps its entry. |
| Bindings.RegisterThenUnregister | src/brickv/bindings/bricklet_sound_pressure_level.py:486-493 | Registering a function and then None under an id not registered before gives the dictionary back, for the popping bindings only. |
| Bindings.PopNeverStoresNone | src/brickv/bindings/bricklet_sound_pressure_level.py:489-492 | A popping binding's dictionary never holds None, whatever is registered. |
| Bindings.Device.constructor | src/brickv/bindings/bricklet_sound_pressure_level.py:91-125 | A new binding holds the tables it was given and no registered callback. |
| Bindings.Device.RegisterCallback | src/brickv/bindings/bricklet_sound_pressure_level.py:486-493 | register_callback changes only the callback dictionary, to AfterRegister of the old one. |
| BarometerV2.Create | src/brickv/bindings/bricklet_barometer_v2.py:104-150 | The constructor: fills the three tables; no callback is registered yet. |
| BarometerV2.ExpectationsAgree1 | src/brickv/bindings/bricklet_barometer_v2.py:159-259 | Each function is in the response-expected table, ALWAYS_TRUE exactly when it returns a payload (part 1). |
| BarometerV2.ExpectationsAgree2 | src/brickv/bindings/bricklet_barometer_v2.py:265-349 | Each function is in the response-expected table, ALWAYS_TRUE exactly when it returns a payload (part 2). |
| BarometerV2.ExpectationsAgree3 | src/brickv/bindings/bricklet_barometer_v2.py:356-401 | Each function is in the response-expected table, ALWAYS_TRUE exactly when it returns a payload (part 3). |
| BarometerV2.ExpectationsAgree4 | src/brickv/bindings/bricklet_barometer_v2.py:410-454 | Each function is in the response-expected table, ALWAYS_TRUE exactly when it returns a payload (part 4). |
| BarometerV2.ExpectationsAgree5 | src/brickv/bindings/bricklet_barometer_v2.py:467-513 | Each function is in the response-expected table, ALWAYS_TRUE exactly when it returns a payload (part 5). |
| BarometerV2.ExpectationsAgree6 | src/brickv/bindings/bricklet_barometer_v2.py:524-556 | Each function is in the response-expected table, ALWAYS_TRUE exactly when it returns a payload (part 6). |
| BarometerV2.TableKeys | src/brickv/bindings/bricklet_barometer_v2.py:113-141 | The dictionary holds exactly the ids the constructor assigns. |
| BarometerV2.AcknowledgedSetters | src/brickv/bindings/bricklet_barometer_v2.py:113-141 | The ids flagged TRUE (acknowledged only on request) are exactly these setters, none of which returns a payload; no id is flagged ALWAYS_FALSE. |
| BarometerV2.SetGetFormatsMirror | src/brickv/bindings/bricklet_barometer_v2.py:199-502 | Each setter sends exactly the format its getter returns. |
| EnergyMonitor.Create | src/brickv/bindings/bricklet_energy_monitor.py:79-115 | The constructor: fills the three tables; no callback is registered yet. |
| EnergyMonitor.ExpectationsAgree1 | src/brickv/bindings/bricklet_energy_monitor.py:117-145 | Each function is in the response-expected table, ALWAYS_TRUE exactly when it returns a payload (part 1). |
| EnergyMonitor.ExpectationsAgree2 | src/brickv/bindings/bricklet_energy_monitor.py:151-199 | Each function is in the response-expected table, ALWAYS_TRUE exactly when it returns a payload (part 2). |
| EnergyMonitor.ExpectationsAgree3 | src/brickv/bindings/bricklet_energy_monitor.py:215-263 | Each function is in the response-expected table, ALWAYS_TRUE exactly when it returns a payload (part 3). |
| EnergyMonitor.ExpectationsAgree4 | src/brickv/bindings/bricklet_energy_monitor.py:269-310 | Each function is in the response-expected table, ALWAYS_TRUE exactly when it returns a payload (part 4). |
| EnergyMonitor.ExpectationsAgree5 | src/brickv/bindings/bricklet_energy_monitor.py:323 | Each function is in the response-expected table, ALWAYS_TRUE exactly when it returns a payload (part 5). |
| EnergyMonitor.TableKeys | src/brickv/bindings/bricklet_energy_monitor.py:88-108 | The dictionary holds exactly the ids the constructor assigns. |
| EnergyMonitor.AcknowledgedSetters | src/brickv/bindings/bricklet_energy_monitor.py:88-108 | The ids flagged TRUE (acknowledged only on request) are exactly these setters, none of which returns a payload; no id is flagged ALWAYS_FALSE. |
| EnergyMonitor.SetGetFormatsMirror | src/brickv/bindings/bricklet_energy_monitor.py:145-269 | Each setter sends exactly the format its getter returns. |
| EnergyMonitor.Concat | src/brickv/bindings/bricklet_energy_monitor.py:342 | The values of the given chunks, in order; 30 per chunk. |
| EnergyMonitor.GetWaveform | src/brickv/bindings/bricklet_energy_monitor.py:325-353 | The loop's result and the number of low-level calls are those of the reference Waveform on the same responses. |
| EnergyMonitor.Drain | src/brickv/bindings/bricklet_energy_monitor.py:345-349 | The discarding loop never returns a value and consumes only responses it was given. |
| EnergyMonitor.Collect | src/brickv/bindings/bricklet_energy_monitor.py:340-353 | The in-sync loop consumes only responses it was given, and a waveform it returns has exactly 1536 values. |
| EnergyMonitor.Waveform | src/brickv/bindings/bricklet_energy_monitor.py:325-353 | get_waveform makes at least one request; a returned waveform is empty after the 0xFFFF no-data offset and has exactly 1536 values otherwise. |
| EnergyMonitor.NoDataSentinel | src/brickv/bindings/bricklet_energy_monitor.py:332-336 | A first chunk at offset 0xFFFF gives an empty waveform after one call, without error. |
| EnergyMonitor.InSyncWaveform | src/brickv/bindings/bricklet_energy_monitor.py:340-353 | An in-sync run consumes exactly 52 responses and returns the first 1536 values of their chunks. |
| EnergyMonitor.WaveformOkIsInSync | src/brickv/bindings/bricklet_energy_monitor.py:330-353 | Apart from the no-data sentinel, a returned waveform always comes from a 52-response in-sync run. |
| EnergyMonitor.OutOfSyncIsDrained | src/brickv/bindings/bricklet_energy_monitor.py:345-349 | STREAM_OUT_OF_SYNC is raised only once the last response consumed reached the end of the 1536 values. |
| HallEffectV2.Create | src/brickv/bindings/bricklet_hall_effect_v2.py:82-115 | The constructor: fills the three tables; no callback is registered yet. |
| HallEffectV2.ExpectationsAgree1 | src/brickv/bindings/bricklet_hall_effect_v2.py:126-211 | Each function is in the response-expected table, ALWAYS_TRUE exactly when it returns a payload (part 1). |
| HallEffectV2.ExpectationsAgree2 | src/brickv/bindings/bricklet_hall_effect_v2.py:217-275 | Each function is in the response-expected table, ALWAYS_TRUE exactly when it returns a payload (part 2). |
| HallEffectV2.ExpectationsAgree3 | src/brickv/bindings/bricklet_hall_effect_v2.py:281-329 | Each function is in the response-expected table, ALWAYS_TRUE exactly when it returns a payload (part 3). |
| HallEffectV2.ExpectationsAgree4 | src/brickv/bindings/bricklet_hall_effect_v2.py:340-383 | Each function is in the response-expected table, ALWAYS_TRUE exactly when it returns a payload (part 4). |
| HallEffectV2.TableKeys | src/brickv/bindings/bricklet_hall_effect_v2.py:91-110 | The dictionary holds exactly the ids the constructor assigns. |
| HallEffectV2.AcknowledgedSetters | src/brickv/bindings/bricklet_hall_effect_v2.py:91-110 | The ids flagged TRUE (acknowledged only on request) are exactly these setters, none of which returns a payload; no id is flagged ALWAYS_FALSE. |
| HallEffectV2.SetGetFormatsMirror | src/brickv/bindings/bricklet_hall_effect_v2.py:166-329 | Each setter sends exactly the format its getter returns. |
| IndustrialDigitalIn4V2.Create | src/brickv/bindings/bricklet_industrial_digital_in_4_v2.py:88-123 | The constructor: fills the three tables; no callback is registered yet. |
| IndustrialDigitalIn4V2.DeclaredLengths1 | src/brickv/bindings/bricklet_industrial_digital_in_4_v2.py:131-192 | Each declared response length is 0 with no payload, or 8 plus the packed response format (part 1). |
| IndustrialDigitalIn4V2.DeclaredLengths2 | src/brickv/bindings/bricklet_industrial_digital_in_4_v2.py:207-267 | Each declared response length is 0 with no payload, or 8 plus the packed response format (part 2). |
| IndustrialDigitalIn4V2.DeclaredLengths3 | src/brickv/bindings/bricklet_industrial_digital_in_4_v2.py:285-326 | Each declared response length is 0 with no payload, or 8 plus the packed response format (part 3). |
| IndustrialDigitalIn4V2.DeclaredLengths4 | src/brickv/bindings/bricklet_industrial_digital_in_4_v2.py:343-407 | Each declared response length is 0 with no payload, or 8 plus the packed response format (part 4). |
| IndustrialDigitalIn4V2.DeclaredLengths5 | src/brickv/bindings/bricklet_industrial_digital_in_4_v2.py:416-431 | Each declared response length is 0 with no payload, or 8 plus the packed response format (part 5). |
| IndustrialDigitalIn4V2.CallbackLengths | src/brickv/bindings/bricklet_industrial_digital_in_4_v2.py:120-121 | Every declared callback length is 8 plus the packed callback format. |
| IndustrialDigitalIn4V2.ExpectationsAgree1 | src/brickv/bindings/bricklet_industrial_digital_in_4_v2.py:131-192 | Each function is in the response-expected table, ALWAYS_TRUE exactly when it returns a payload (part 1). |
| IndustrialDigitalIn4V2.ExpectationsAgree2 | src/brickv/bindings/bricklet_industrial_digital_in_4_v2.py:207-267 | Each function is in the response-expected table, ALWAYS_TRUE exactly when it returns a payload (part 2). |
| IndustrialDigitalIn4V2.ExpectationsAgree3 | src/brickv/bindings/bricklet_industrial_digital_in_4_v2.py:285-343 | Each function is in the response-expected table, ALWAYS_TRUE exactly when it returns a payload (part 3). |
| IndustrialDigitalIn4V2.ExpectationsAgree4 | src/brickv/bindings/bricklet_industrial_digital_in_4_v2.py:359-407 | Each function is in the response-expected table, ALWAYS_TRUE exactly when it returns a payload (part 4). |
| IndustrialDigitalIn4V2.ExpectationsAgree5 | src/brickv/bindings/bricklet_industrial_digital_in_4_v2.py:416-431 | Each function is in the response-expected table, ALWAYS_TRUE exactly when it returns a payload (part 5). |
| IndustrialDigitalIn4V2.TableKeys | src/brickv/bindings/bricklet_industrial_digital_in_4_v2.py:97-118 | The dictionary holds exactly the ids the constructor assigns. |
| IndustrialDigitalIn4V2.AcknowledgedSetters | src/brickv/bindings/bricklet_industrial_digital_in_4_v2.py:97-118 | The ids flagged TRUE (acknowledged only on request) are exactly these setters, none of which returns a payload; no id is flagged ALWAYS_FALSE. |
| IndustrialDigitalIn4V2.SetGetFormatsMirror | src/brickv/bindings/bricklet_industrial_digital_in_4_v2.py:183-367 | Each setter sends exactly the format its getter returns. |
| IndustrialDigitalIn4V2.ChannelSetGetFormatsMirror | src/brickv/bindings/bricklet_industrial_digital_in_4_v2.py:153-267 | Each per-channel setter sends the getter's request (the channel) followed by what the getter returns. |
| IndustrialDigitalIn4V2.BooleanPacking | src/brickv/bindings/bricklet_industrial_digital_in_4_v2.py:131-192 | '4!' packs into one byte, '4! 4!' into two, 'B ! !' takes three bytes and 'I !' five. |
| LaserRangeFinder.Create | src/brickv/bindings/bricklet_laser_range_finder.py:56-81 | The constructor: fills the three tables; no callback is registered yet. |
| LaserRangeFinder.ExpectationsAgree1 | src/brickv/bindings/bricklet_laser_range_finder.py:89-133 | Each function is in the response-expected table, ALWAYS_TRUE exactly when it returns a payload (part 1). |
| LaserRangeFinder.ExpectationsAgree2 | src/brickv/bindings/bricklet_laser_range_finder.py:149-188 | Each function is in the response-expected table, ALWAYS_TRUE exactly when it returns a payload (part 2). |
| LaserRangeFinder.TableKeys | src/brickv/bindings/bricklet_laser_range_finder.py:65-76 | The dictionary holds exactly the ids the constructor assigns. |
| LaserRangeFinder.AcknowledgedSetters | src/brickv/bindings/bricklet_laser_range_finder.py:65-76 | The ids flagged TRUE (acknowledged only on request) are exactly these setters, none of which returns a payload; the ids flagged ALWAYS_FALSE are exactly the callbacks listed. |
| LaserRangeFinder.SetGetFormatsMirror | src/brickv/bindings/bricklet_laser_range_finder.py:101-175 | Each setter sends exactly the format its getter returns. |
| Oled128x64.Create | src/brickv/bindings/bricklet_oled_128x64.py:42-60 | The constructor: fills the three tables; no callback is registered yet. |
| Oled128x64.DeclaredLengths1 | src/brickv/bindings/bricklet_oled_128x64.py:89-155 | Each declared response length is 0 with no payload, or 8 plus the packed response format (part 1). |
| Oled128x64.DeclaredLengths2 | src/brickv/bindings/bricklet_oled_128x64.py:170 | Each declared response length is 0 with no payload, or 8 plus the packed response format (part 2). |
| Oled128x64.ExpectationsAgree1 | src/brickv/bindings/bricklet_oled_128x64.py:89-133 | Each function is in the response-expected table, ALWAYS_TRUE exactly when it returns a payload (part 1). |
| Oled128x64.ExpectationsAgree2 | src/brickv/bindings/bricklet_oled_128x64.py:155-170 | Each function is in the response-expected table, ALWAYS_TRUE exactly when it returns a payload (part 2). |
| Oled128x64.TableKeys | src/brickv/bindings/bricklet_oled_128x64.py:51-57 | The dictionary holds exactly the ids the constructor assigns. |
| Oled128x64.AcknowledgedSetters | src/brickv/bindings/bricklet_oled_128x64.py:51-57 | The ids flagged TRUE (acknowledged only on request) are exactly these setters, none of which returns a payload; no id is flagged ALWAYS_FALSE. |
| Oled128x64.SetGetFormatsMirror | src/brickv/bindings/bricklet_oled_128x64.py:125-133 | Each setter sends exactly the format its getter returns. |
| Oled128x64.FixedWritePayloads | src/brickv/bindings/bricklet_oled_128x64.py:89-155 | write sends exactly 64 bytes; write_line sends line and position bytes and a 26-byte text field. |
| SilentStepperV2.Create | src/brickv/bindings/bricklet_silent_stepper_v2.py:180-256 | The constructor: fills the three tables; no callback is registered yet. |
| SilentStepperV2.DeclaredLengths1 | src/brickv/bindings/bricklet_silent_stepper_v2.py:270-330 | Each declared response length is 0 with no payload, or 8 plus the packed response format (part 1). |
| SilentStepperV2.DeclaredLengths2 | src/brickv/bindings/bricklet_silent_stepper_v2.py:342-401 | Each declared response length is 0 with no payload, or 8 plus the packed response format (part 2). |
| SilentStepperV2.DeclaredLengths3 | src/brickv/bindings/bricklet_silent_stepper_v2.py:412-470 | Each declared response length is 0 with no payload, or 8 plus the packed response format (part 3). |
| SilentStepperV2.DeclaredLengths4 | src/brickv/bindings/bricklet_silent_stepper_v2.py:489-593 | Each declared response length is 0 with no payload, or 8 plus the packed response format (part 4). |
| SilentStepperV2.DeclaredLengths5 | src/brickv/bindings/bricklet_silent_stepper_v2.py:601-657 | Each declared response length is 0 with no payload, or 8 plus the packed response format (part 5). |
| SilentStepperV2.DeclaredLengths6 | src/brickv/bindings/bricklet_silent_stepper_v2.py:665 | Each declared response length is 0 with no payload, or 8 plus the packed response format (part 6). |
| SilentStepperV2.DeclaredLengths7 | src/brickv/bindings/bricklet_silent_stepper_v2.py:702-752 | Each declared response length is 0 with no payload, or 8 plus the packed response format (part 7). |
| SilentStepperV2.DeclaredLengths8 | src/brickv/bindings/bricklet_silent_stepper_v2.py:760-783 | Each declared response length is 0 with no payload, or 8 plus the packed response format (part 8). |
| SilentStepperV2.DeclaredLengths9 | src/brickv/bindings/bricklet_silent_stepper_v2.py:791-817 | Each declared response length is 0 with no payload, or 8 plus the packed response format (part 9). |
| SilentStepperV2.DeclaredLengths10 | src/brickv/bindings/bricklet_silent_stepper_v2.py:851-866 | Each declared response length is 0 with no payload, or 8 plus the packed response format (part 10). |
| SilentStepperV2.DeclaredLengths11 | src/brickv/bindings/bricklet_silent_stepper_v2.py:874-897 | Each declared response length is 0 with no payload, or 8 plus the packed response format (part 11). |
| SilentStepperV2.DeclaredLengths12 | src/brickv/bindings/bricklet_silent_stepper_v2.py:917-950 | Each declared response length is 0 with no payload, or 8 plus the packed response format (part 12). |
| SilentStepperV2.DeclaredLengths13 | src/brickv/bindings/bricklet_silent_stepper_v2.py:960-998 | Each declared response length is 0 with no payload, or 8 plus the packed response format (part 13). |
| SilentStepperV2.DeclaredLengths14 | src/brickv/bindings/bricklet_silent_stepper_v2.py:1016-1057 | Each declared response length is 0 with no payload, or 8 plus the packed response format (part 14). |
| SilentStepperV2.DeclaredLengths15 | src/brickv/bindings/bricklet_silent_stepper_v2.py:1074-1138 | Each declared response length is 0 with no payload, or 8 plus the packed response format (part 15). |
| SilentStepperV2.DeclaredLengths16 | src/brickv/bindings/bricklet_silent_stepper_v2.py:1147-1162 | Each declared response length is 0 with no payload, or 8 plus the packed response format (part 16). |
| SilentStepperV2.CallbackLengths | src/brickv/bindings/bricklet_silent_stepper_v2.py:250-254 | Every declared callback length is 8 plus the packed callback format. |
| SilentStepperV2.ExpectationsAgree1 | src/brickv/bindings/bricklet_silent_stepper_v2.py:270-315 | Each function is in the response-expected table, ALWAYS_TRUE exactly when it returns a payload (part 1). |
| SilentStepperV2.ExpectationsAgree2 | src/brickv/bindings/bricklet_silent_stepper_v2.py:330-380 | Each function is in the response-expected table, ALWAYS_TRUE exactly when it returns a payload (part 2). |
| SilentStepperV2.ExpectationsAgree3 | src/brickv/bindings/bricklet_silent_stepper_v2.py:393-441 | Each function is in the response-expected table, ALWAYS_TRUE exactly when it returns a payload (part 3). |
| SilentStepperV2.ExpectationsAgree4 | src/brickv/bindings/bricklet_silent_stepper_v2.py:451-503 | Each function is in the response-expected table, ALWAYS_TRUE exactly when it returns a payload (part 4). |
| SilentStepperV2.ExpectationsAgree5 | src/brickv/bindings/bricklet_silent_stepper_v2.py:511-601 | Each function is in the response-expected table, ALWAYS_TRUE exactly when it returns a payload (part 5). |
| SilentStepperV2.ExpectationsAgree6 | src/brickv/bindings/bricklet_silent_stepper_v2.py:657-752 | Each function is in the response-expected table, ALWAYS_TRUE exactly when it returns a payload (part 6). |
| SilentStepperV2.ExpectationsAgree7 | src/brickv/bindings/bricklet_silent_stepper_v2.py:760-817 | Each function is in the response-expected table, ALWAYS_TRUE exactly when it returns a payload (part 7). |
| SilentStepperV2.ExpectationsAgree8 | src/brickv/bindings/bricklet_silent_stepper_v2.py:851-897 | Each function is in the response-expected table, ALWAYS_TRUE exactly when it returns a payload (part 8). |
| SilentStepperV2.ExpectationsAgree9 | src/brickv/bindings/bricklet_silent_stepper_v2.py:917-960 | Each function is in the response-expected table, ALWAYS_TRUE exactly when it returns a payload (part 9). |
| SilentStepperV2.ExpectationsAgree10 | src/brickv/bindings/bricklet_silent_stepper_v2.py:979-1034 | Each function is in the response-expected table, ALWAYS_TRUE exactly when it returns a payload (part 10). |
| SilentStepperV2.ExpectationsAgree11 | src/brickv/bindings/bricklet_silent_stepper_v2.py:1042-1098 | Each function is in the response-expected table, ALWAYS_TRUE exactly when it returns a payload (part 11). |
| SilentStepperV2.ExpectationsAgree12 | src/brickv/bindings/bricklet_silent_stepper_v2.py:1111-1162 | Each function is in the response-expected table, ALWAYS_TRUE exactly when it returns a payload (part 12). |
| SilentStepperV2.TableKeys | src/brickv/bindings/bricklet_silent_stepper_v2.py:189-248 | The dictionary holds exactly the ids the constructor assigns. |
| SilentStepperV2.AcknowledgedSetters | src/brickv/bindings/bricklet_silent_stepper_v2.py:189-248 | The ids flagged TRUE (acknowledged only on request) are exactly these setters, none of which returns a payload; no id is flagged ALWAYS_FALSE. |
| SilentStepperV2.SetGetFormatsMirror | src/brickv/bindings/bricklet_silent_stepper_v2.py:270-1098 | Each setter sends exactly the format its getter returns. |
| SilentStepperV2.ChannelSetGetFormatsMirror | src/brickv/bindings/bricklet_silent_stepper_v2.py:950-989 | Each per-channel setter sends the getter's request (the channel) followed by what the getter returns. |
| SilentStepperV2.BooleanPacking | src/brickv/bindings/bricklet_silent_stepper_v2.py:441-538 | A lone '!' takes a whole byte, and '2!' packs both booleans into one byte. |
| SilentStepperV2.FirmwareBlock | src/brickv/bindings/bricklet_silent_stepper_v2.py:1074 | write_firmware sends a 64-byte block and gets a one-byte status back, 9 bytes with the header. |
| SoundPressureLevel.Create | src/brickv/bindings/bricklet_sound_pressure_level.py:91-125 | The constructor: fills the three tables; no callback is registered yet. |
| SoundPressureLevel.DeclaredLengths1 | src/brickv/bindings/bricklet_sound_pressure_level.py:143-191 | Each declared response length is 0 with no payload, or 8 plus the packed response format (part 1). |
| SoundPressureLevel.DeclaredLengths2 | src/brickv/bindings/bricklet_sound_pressure_level.py:216-270 | Each declared response length is 0 with no payload, or 8 plus the packed response format (part 2). |
| SoundPressureLevel.DeclaredLengths3 | src/brickv/bindings/bricklet_sound_pressure_level.py:278-314 | Each declared response length is 0 with no payload, or 8 plus the packed response format (part 3). |
| SoundPressureLevel.DeclaredLengths4 | src/brickv/bindings/bricklet_sound_pressure_level.py:322-391 | Each declared response length is 0 with no payload, or 8 plus the packed response format (part 4). |
| SoundPressureLevel.DeclaredLengths5 | src/brickv/bindings/bricklet_sound_pressure_level.py:404-427 | Each declared response length is 0 with no payload, or 8 plus the packed response format (part 5). |
| SoundPressureLevel.DeclaredLengths6 | src/brickv/bindings/bricklet_sound_pressure_level.py:442 | Each declared response length is 0 with no payload, or 8 plus the packed response format (part 6). |
| SoundPressureLevel.CallbackLengths | src/brickv/bindings/bricklet_sound_pressure_level.py:121-122 | Every declared callback length is 8 plus the packed callback format. |
| SoundPressureLevel.ExpectationsAgree1 | src/brickv/bindings/bricklet_sound_pressure_level.py:143-230 | Each function is in the response-expected table, ALWAYS_TRUE exactly when it returns a payload (part 1). |
| SoundPressureLevel.ExpectationsAgree2 | src/brickv/bindings/bricklet_sound_pressure_level.py:239-314 | Each function is in the response-expected table, ALWAYS_TRUE exactly when it returns a payload (part 2). |
| SoundPressureLevel.ExpectationsAgree3 | src/brickv/bindings/bricklet_sound_pressure_level.py:322-378 | Each function is in the response-expected table, ALWAYS_TRUE exactly when it returns a payload (part 3). |
| SoundPressureLevel.ExpectationsAgree4 | src/brickv/bindings/bricklet_sound_pressure_level.py:391-442 | Each function is in the response-expected table, ALWAYS_TRUE exactly when it returns a payload (part 4). |
| SoundPressureLevel.TableKeys | src/brickv/bindings/bricklet_sound_pressure_level.py:100-119 | The dictionary holds exactly the ids the constructor assigns. |
| SoundPressureLevel.AcknowledgedSetters | src/brickv/bindings/bricklet_sound_pressure_level.py:100-119 | The ids flagged TRUE (acknowledged only on request) are exactly these setters, none of which returns a payload; no id is flagged ALWAYS_FALSE. |
| SoundPressureLevel.SetGetFormatsMirror | src/brickv/bindings/bricklet_sound_pressure_level.py:183-378 | Each setter sends exactly the format its getter returns. |
| SoundPressureLevel.Concat | src/brickv/bindings/bricklet_sound_pressure_level.py:474 | The values of the given chunks, in order; 30 per chunk. |
| SoundPressureLevel.GetSpectrum | src/brickv/bindings/bricklet_sound_pressure_level.py:465-484 | The loop's result and the number of low-level calls are those of the reference Spectrum on the same responses. |
| SoundPressureLevel.Drain | src/brickv/bindings/bricklet_sound_pressure_level.py:476-482 | The discarding loop never returns a value and consumes only responses it was given. |
| SoundPressureLevel.Collect | src/brickv/bindings/bricklet_sound_pressure_level.py:471-484 | The in-sync loop consumes only responses it was given; a spectrum it returns has the length the last response it consumed reported. |
| SoundPressureLevel.Spectrum | src/brickv/bindings/bricklet_sound_pressure_level.py:465-484 | get_spectrum makes at least one request, and a returned spectrum has the length the last response consumed reported. |
| SoundPressureLevel.InSyncSpectrum | src/brickv/bindings/bricklet_sound_pressure_level.py:466-484 | An in-sync run of n chunks, the last one reporting a length that n chunks reach, returns the first spectrum_length values of the chunks and consumes exactly n responses. |
| SoundPressureLevel.SpectrumOkIsInSync | src/brickv/bindings/bricklet_sound_pressure_level.py:465-484 | A returned spectrum always comes from an in-sync run of exactly the responses consumed. |
| SoundPressureLevel.FirstChunkOutOfSync | src/brickv/bindings/bricklet_sound_pressure_level.py:468-482 | A first chunk with a nonzero offset gives no value; if it already reaches the stream's end the error is raised after one call. |
| SoundPressureLevel.OutOfSyncIsDrained | src/brickv/bindings/bricklet_sound_pressure_level.py:477-482 | STREAM_OUT_OF_SYNC is raised only once the last response consumed reached the end of the stream. |
| MainWindow.LastThree | src/brickv/mainwindow.py:1078 | The last three entries, or all of them when there are fewer. |
| MainWindow.DisconnectActionOf | src/brickv/mainwindow.py:1066-1079 | Only an unexpected disconnect with auto-reconnect on reconnects; it gives up only when three failures are recorded and the oldest of them is before now + 1, and retries otherwise. |
| MainWindow.TimesAfterDisconnect | src/brickv/mainwindow.py:1066-1079 | The recorded disconnect times: unchanged on a UI refresh (a by-request disconnect or auto-reconnect off), emptied on giving up, and the last three plus now on a retry. |
| MainWindow.DisconnectTimesBounded | src/brickv/mainwindow.py:1066-1079 | The list of disconnect times never holds more than four entries. |
| MainWindow.GiveUpDependsOnlyOnCount | src/brickv/mainwindow.py:1069-1070 | With a monotonic clock the guard `times[-3] < now + 1` always holds, so giving up depends only on there being three recorded failures. |
| MainWindow.FourthFailureGivesUp | src/brickv/mainwindow.py:1057-1079 | Four unexpected disconnects in a row with auto-reconnect on end auto-reconnecting, and the list is emptied. |
| MainWindow.AuthenticationRule | src/brickv/mainwindow.py:454-490 | do_authenticate passes exactly when authentication is off, or the secret is ASCII and accepted; checking a secret leaves auto-reconnect on exactly when it was accepted. |
| MainWindow.IndexOf | src/brickv/mainwindow.py:1009 | findText: the first index holding x, or -1 when none does. |
| MainWindow.PromotedHosts | src/brickv/mainwindow.py:1009-1024 | A host the combo shows keeps the row count and its own row moves to the front; an unknown host adds one row, a copy of the current row renamed to the host, at the front. |
| MainWindow.PromotedCombo | src/brickv/mainwindow.py:1009-1026 | The host heads the combo, which gains at most one entry. |
| MainWindow.PromotedComboLength | src/brickv/mainwindow.py:1009-1026 | A host already shown keeps the entry count; a new host adds exactly one entry. |
| MainWindow.MoveToFrontKeepsOrder | src/brickv/mainwindow.py:1011-1017 | Moving row k to the front keeps every row and the order of the others. |
| MainWindow.PromotionKeepsParallel | src/brickv/mainwindow.py:1009-1027 | After a by-request connect the host just used heads both lists, and the lists stay parallel. |
| MainWindow.PromotionMovesKnownHost | src/brickv/mainwindow.py:1011-1017 | A host the combo shows moves to the front; the rows before it shift by one, the rows after it stay, none is lost or added. |
| MainWindow.PromotionAddsNewHost | src/brickv/mainwindow.py:1018-1024 | A host the combo does not show gets a copy of the current row, renamed, in front of all old rows. |
| MainWindow.ParallelPrefix | src/brickv/mainwindow.py:1029-1030 | A prefix of a combo parallel to the host list is parallel to it too. |
| MainWindow.PromotedStateValid | src/brickv/mainwindow.py:1009-1030 | The host lists after a by-request connect satisfy the window's invariant. |
| MainWindow.TrimKeepsFront | src/brickv/mainwindow.py:1029-1030 | The trimming loop keeps the first HOST_INFO_COUNT entries and drops the rest. |
| MainWindow.PromotionKeepsHostsDistinct | src/brickv/mainwindow.py:1009-1027 | A combo without repeated hosts keeps none after a connect: the host used appears once, at the front. |
| MainWindow.Window.constructor | src/brickv/mainwindow.py:179-183 | The host list loaded from the configuration fills the combo, one entry per row. |
| MainWindow.Window.DoDisconnect | src/brickv/mainwindow.py:431-452 | do_disconnect resets both counters, drops the tabs and asks the connection to disconnect. |
| MainWindow.Window.ConnectClicked | src/brickv/mainwindow.py:541-549 | connect_clicked: when disconnected, remember the combo's text and connect to it; otherwise disconnect. |
| MainWindow.Window.DoAuthenticate | src/brickv/mainwindow.py:454-490 | do_authenticate's answer and the auto-reconnect flag are those of Authenticated and AutoReconnectAfter; every failure disconnects. |
| MainWindow.Promote | src/brickv/mainwindow.py:1009-1030 | The host rows and combo entries become PromotedHosts and the trimmed PromotedCombo; they stay parallel, the combo holds between one and HOST_INFO_COUNT entries, and both start with the host. |
| MainWindow.TrimTail | src/brickv/mainwindow.py:1029-1030 | Removing last entries while there are more than HOST_INFO_COUNT leaves exactly the first HOST_INFO_COUNT (or all, if fewer). |
| MainWindow.Window.AuthenticateAndEnumerate | src/brickv/mainwindow.py:1032-1038 | After do_authenticate, enumeration runs exactly when authentication passed; the effects, auto-reconnect flag and counters are those of the authentication result. |
| MainWindow.Window.CbConnected | src/brickv/mainwindow.py:995-1055 | cb_connected: by request, counters reset, auto-reconnect on, host promoted; on auto-reconnect one more counted; both then authenticate and enumerate only if that passed. |
| MainWindow.Window.ConnectedByRequest | src/brickv/mainwindow.py:998-1038 | Both counters end at zero, the host lists are promoted and trimmed with the first entry selected, auto-reconnect ends as the authentication result leaves it starting from on, and enumeration follows exactly when authentication passed. |
| MainWindow.Window.ConnectedByAutoReconnect | src/brickv/mainwindow.py:1039-1050 | The host lists are untouched; the auto-reconnect count grows by one when authentication passes and both counters reset when it fails; enumeration follows exactly when it passed. |
| MainWindow.Window.EnumerateDevices | src/brickv/mainwindow.py:1035-1038 | enumerate(), with a UI refresh when it raises. |
| MainWindow.Window.CbDisconnected | src/brickv/mainwindow.py:1057-1079 | cb_disconnected: a by-request disconnect resets both counters; then the UI is refreshed, auto-reconnect given up, or the failure recorded, as TimesAfterDisconnect says. |
| MainWindow.TabForUid | src/brickv/mainwindow.py:798-806 | tab_for_uid returns the first tab after tab 0 whose info has the uid, or -1 when none does. |
| MainWindow.Decimal | src/brickv/mainwindow.py:897 | str(n) of a natural number: digits only, with no leading zero. |
| MainWindow.TngIdentifierDigits | src/brickv/mainwindow.py:897 | str(id) starts with "20" exactly when the number's two leading digits are 2 and 0. |
| MainWindow.BrickPositionRule | src/brickv/mainwindow.py:899 | '0' <= position <= '9' holds exactly when the position starts with a digit below 9 or is "9". |
| MainWindow.Classify | src/brickv/mainwindow.py:886-902 | A Master Brick info exactly for the Master Brick identifier; one of the five named kinds exactly for the named devices; a TNG info for any other device whose identifier starts with 20. |
| MainWindow.ClassifyUnnamed | src/brickv/mainwindow.py:886-902 | A device with no special identifier is a TNG device when its identifier starts with 20, a Brick on a single-digit port, and a Bricklet otherwise. |
| MainWindow.Lower | src/brickv/mainwindow.py:850 | position.lower() on ASCII: the result has the same length, no upper-case letter, and every character that is not one unchanged. |
| MainWindow.CacheInvalid | src/brickv/mainwindow.py:848-858 | A cached info is invalid whenever parent, port (ignoring case), hardware version or identifier differ; with all four equal it stays valid when its firmware is unknown, equal, or it is a RED Brick. |
| MainWindow.ApplyEnumeration | src/brickv/mainwindow.py:904-915 | The refreshed info carries the enumeration's uid, parent, lower-cased position, hardware version, identifier and enumeration type, and its firmware version unless it is a RED Brick. |
| MainWindow.Enumerate | src/brickv/mainwindow.py:837-960 | cb_enumerate: ignored unless connected; a disconnected device is removed; otherwise its info is refreshed, or replaced if invalid. |
| MainWindow.InvalidationIgnoresPositionCase | src/brickv/mainwindow.py:848-857 | The invalidation test ignores the case of the port. |
| MainWindow.KeptIffValid | src/brickv/mainwindow.py:848-915 | A cached info is kept (its fields refreshed) exactly when it is still valid; an invalid one is replaced by a fresh info of the classified kind. |
| MainWindow.ReenumerationKeepsInfo | src/brickv/mainwindow.py:848-915 | The info written by one enumeration is valid for the same enumeration again, so the plugin is not recreated. |
| MainWindow.EnumerateIdempotent | src/brickv/mainwindow.py:837-960 | Applying the same enumeration twice gives the same inventory as applying it once. |
| PlotWidget.FuzzyOrder | src/brickv/plot_widget.py:59-66 | fuzzy_leq is "below b + EPSILON", fuzzy_geq its mirror, and fuzzy_eq holds exactly when each is fuzzily at most the other. |
| PlotWidget.MinOf | src/brickv/plot_widget.py:822 | Python's min of a non-empty list: no element is below it. |
| PlotWidget.MaxOf | src/brickv/plot_widget.py:823 | Python's max of a non-empty list: no element is above it. |
| PlotWidget.ExtremaAreElements | src/brickv/plot_widget.py:822-823 | The minimum and the maximum are elements of the list. |
| PlotWidget.ExtremaAppend | src/brickv/plot_widget.py:793-801 | Appending a value folds it into the running extrema, as add_data does for the per-curve y range. |
| PlotWidget.SomeValuesMembers | src/brickv/plot_widget.py:883-884 | The cached bounds kept are exactly those of the curves that have one. |
| PlotWidget.VisibleValuesMembers | src/brickv/plot_widget.py:896-897 | The y bounds taken are exactly those of the visible curves that have one. |
| PlotWidget.HiddenCurvesIgnored | src/brickv/plot_widget.py:896-897 | The bounds of hidden curves do not affect the global y range. |
| PlotWidget.BisectFrom | src/brickv/plot_widget.py:806 | The halving search of bisect.bisect_left on a[lo..hi] answers an index between lo and hi. |
| PlotWidget.BisectFromSorted | src/brickv/plot_widget.py:806 | On a sorted list bisect_left returns the first index whose value is at least x. |
| PlotWidget.BisectLeft | src/brickv/plot_widget.py:806 | bisect_left(a, x) lies in 0..|a|, and on sorted a every value before it is below x and every value from it on is at least x. |
| PlotWidget.Trunc | src/brickv/plot_widget.py:806 | int() of a float: truncation toward zero, so it is within 1 of the value and has its sign. |
| PlotWidget.CurveValueWrapper.constructor | src/brickv/plot_widget.py:69-72 | A new wrapper is unlocked, with no history and no value. |
| PlotWidget.CurveValueWrapper.SetValue | src/brickv/plot_widget.py:78-85 | Setting value stores it and, unless locked, appends it with the time to the history. |
| PlotWidget.Repeat | src/brickv/plot_widget.py:865 | [v] * n has n entries, each v. |
| PlotWidget.MotionCut | src/brickv/plot_widget.py:804-808 | How many oldest points a curve that spans x_diff drops: one in smooth motion, all before the first whole second after x_min in jump motion. |
| PlotWidget.Trimmed | src/brickv/plot_widget.py:809-825 | Dropping the k oldest points leaves k fewer, keeps the pending jump, and recomputes the extrema so that parallel lists give a valid curve. |
| PlotWidget.Added | src/brickv/plot_widget.py:782-832 | After add_data the curve's lists stay parallel, grow by at most one, end with the new point when not empty, and no jump is pending. |
| PlotWidget.AddedCurve | src/brickv/plot_widget.py:782-826 | add_data keeps a valid curve valid; its lists are the old ones with the point (and pending jump) appended and, when the curve then spans x_diff, the MotionCut oldest entries dropped. |
| PlotWidget.SmoothMotionSlides | src/brickv/plot_widget.py:804-812 | In smooth motion a curve that spans x_diff keeps its length: the oldest point goes, the new one is the last. |
| PlotWidget.JumpCutDropsBeforeNextSecond | src/brickv/plot_widget.py:805-812 | In jump motion on an x-ordered curve the cut drops exactly the points before int(x_min) + 1. |
| PlotWidget.Bounds | src/brickv/plot_widget.py:1028-1031 | One cached bound per curve, in curve order. |
| PlotWidget.MergeBounds | src/brickv/plot_widget.py:899-913 | The merged y range covers every bound it is taken over; with a scale that may not shrink, y_min never rises and y_max never falls. |
| PlotWidget.XRangeCoversCurves | src/brickv/plot_widget.py:883-894 | The global x range covers the cached x range of every curve that has one. |
| PlotWidget.VisiblePointsInYRange | src/brickv/plot_widget.py:881-914 | Every point of every visible curve lies inside the global y range computed from the curves' cached extrema. |
| PlotWidget.Plot.constructor | src/brickv/plot_widget.py:564-611 | A new plot shows every curve and holds no data. |
| PlotWidget.Plot.ClearGraph | src/brickv/plot_widget.py:1018-1037 | clear_graph drops all data and extrema and keeps which curves are shown. |
| PlotWidget.Plot.AddJump | src/brickv/plot_widget.py:843-844 | add_jump: the next point added to curve c starts a new line segment; nothing else changes. |
| PlotWidget.Plot.UpdateXMinMaxYMinMax | src/brickv/plot_widget.py:881-917 | update_x_min_max_y_min_max: x range over all curves, y range over the visible ones, merged with the old range when the scale may not shrink. |
| PlotWidget.Plot.ShowCurve | src/brickv/plot_widget.py:1001-1016 | show_curve shows or hides curve c and, on a change, recomputes the global extrema. |
| PlotWidget.Plot.SetData | src/brickv/plot_widget.py:847-879 | set_data replaces curve c by the given points, without jumps, with its extrema, and recomputes the global extrema. |
| PlotWidget.Plot.FoldIntoRanges | src/brickv/plot_widget.py:765-780 | The first step of add_data: unset global x extrema become x; y is folded into the global y range when curve c is visible. |
| PlotWidget.Plot.AddData | src/brickv/plot_widget.py:755-841 | add_data: folds the point into the global ranges and applies AddedCurve to curve c; then either recomputes all extrema and enables partial updates, or moves x_max. |
| PlotWidget.Plot.AddToCurve | src/brickv/plot_widget.py:782-833 | add_data's work on one curve: append, then trim if the curve spans x_diff, or else move its x maximum to the new last x. |
| PlotWidget.Plot.MoveWindow | src/brickv/plot_widget.py:804-830 | The trimming branch: the trimmed curve takes its place, all extrema are recomputed, partial updates are enabled. |
| PlotWidget.Plot.ExtendCurve | src/brickv/plot_widget.py:831-833 | The other branch: the curve's x maximum becomes its last x and the global x maximum the greatest curve maximum. |
| PlotWidget.Plot.ReplaceCurve | src/brickv/plot_widget.py:810-826 | Puts a valid curve in place of curve c; the others are unchanged. |
| PlotWidget.MarkJumps | src/brickv/plot_widget.py:1286-1294 | The curves after the stop setter visited the first n wrappers. |
| PlotWidget.MarkJumpsMarks | src/brickv/plot_widget.py:1286-1294 | Stopping sets the pending jump of exactly the visited curves that have a wrapper and leaves every other field as it was. |
| PlotWidget.PlotWidget.constructor | src/brickv/plot_widget.py:1089-1090 | A new plot widget starts stopped. |
| PlotWidget.PlotWidget.SetStop | src/brickv/plot_widget.py:1284-1296 | The stop setter locks every wrapper exactly when stopping and drops its history; stopping also marks a jump on each curve with a wrapper. |
| PluginBase.Next | src/brickv/plugin_system/plugin_base.py:131-195 | stop_plugin always stops; only start_plugin leaves STOPPED; a plugin enters RUNNING only by starting from STOPPED or resuming from PAUSED. |
| PluginBase.HooksOf | src/brickv/plugin_system/plugin_base.py:131-195 | A call runs the start hook exactly when the plugin enters RUNNING, the stop hook exactly when it leaves it, and no hook otherwise. |
| PluginBase.Run | src/brickv/plugin_system/plugin_base.py:131-195 | A series of calls that ends with stop_plugin ends STOPPED. |
| PluginBase.RunHooks | src/brickv/plugin_system/plugin_base.py:131-195 | A series of calls runs at most one hook per call, and never the destroy hook. |
| PluginBase.StartPluginRule | src/brickv/plugin_system/plugin_base.py:131-152 | start_plugin acts only on a stopped plugin: with the connection pending it only marks it paused; otherwise it calls start_comcu (if defined) or start once and the plugin runs. |
| PluginBase.StopPluginIdempotent | src/brickv/plugin_system/plugin_base.py:154-169 | stop_plugin always ends stopped, calls the stop hook only from RUNNING, and a second stop calls nothing. |
| PluginBase.PauseResumeRule | src/brickv/plugin_system/plugin_base.py:171-195 | pause_plugin moves only RUNNING to PAUSED, resume_plugin only PAUSED to RUNNING; a stopped plugin is neither paused nor resumed. |
| PluginBase.StoppedUntilStarted | src/brickv/plugin_system/plugin_base.py:131-195 | From STOPPED, any series of calls without start_plugin stays STOPPED and calls no hook. |
| PluginBase.HooksBalanced | src/brickv/plugin_system/plugin_base.py:131-195 | Over any series of calls, start hooks and stop hooks alternate: their counts differ by one exactly while the plugin runs. |
| PluginBase.Plugin.constructor | src/brickv/plugin_system/plugin_base.py:44-66 | A new plugin is STOPPED with no errors and no hook called. |
| PluginBase.Plugin.StartPlugin | src/brickv/plugin_system/plugin_base.py:131-152 | start_plugin: the new state and the hooks called are those of Next and HooksOf. |
| PluginBase.Plugin.StopPlugin | src/brickv/plugin_system/plugin_base.py:154-169 | stop_plugin: STOPPED, with the stop hook called only from RUNNING. |
| PluginBase.Plugin.PausePlugin | src/brickv/plugin_system/plugin_base.py:171-182 | pause_plugin: the new state and the hooks called are those of Next and HooksOf. |
| PluginBase.Plugin.ResumePlugin | src/brickv/plugin_system/plugin_base.py:184-195 | resume_plugin: the new state and the hooks called are those of Next and HooksOf. |
| PluginBase.Plugin.DestroyPlugin | src/brickv/plugin_system/plugin_base.py:197-209 | destroy_plugin calls the destroy hook, then empties the device's callback dictionary and leaves its other tables alone. |
| PluginBase.Plugin.IncreaseErrorCount | src/brickv/plugin_system/plugin_base.py:252-253 | increase_error_count adds one to the error count. |
| RemoteSwitchV2.Decode | src/brickv/plugin_system/plugins/remote_switch_v2/remote_switch_v2.py:151-163 | The boxes that show spin-box value v: box i is checked iff bit i of v is set. |
| RemoteSwitchV2.Encode | src/brickv/plugin_system/plugins/remote_switch_v2/remote_switch_v2.py:173-187 | The spin-box value the five boxes stand for: the OR of 1 << i over the checked boxes, between 0 and 31. |
| RemoteSwitchV2.EncodeDecode | src/brickv/plugin_system/plugins/remote_switch_v2/remote_switch_v2.py:151-187 | Reading the boxes back after setting them from v gives v & 31. |
| RemoteSwitchV2.DecodeEncode | src/brickv/plugin_system/plugins/remote_switch_v2/remote_switch_v2.py:151-187 | Setting the boxes from the value they encode leaves them as they were. |
| RemoteSwitchV2.CheckBoxes | src/brickv/plugin_system/plugins/remote_switch_v2/remote_switch_v2.py:151-156 | Box i is checked iff bit i of state is set, for the five boxes; nothing else changes. |
| RemoteSwitchV2.CodeOfBoxes | src/brickv/plugin_system/plugins/remote_switch_v2/remote_switch_v2.py:173-179 | The loop computes Encode of the boxes. |
| RemoteSwitchV2.PyIndex | src/brickv/plugin_system/plugins/remote_switch_v2/remote_switch_v2.py:142-149 | The group type_widgets[index] selects, with Python's negative indices. |
| RemoteSwitchV2.AfterTypeIndex | src/brickv/plugin_system/plugins/remote_switch_v2/remote_switch_v2.py:142-149 | After type_index_changed(index) every widget of the selected group is visible. |
| RemoteSwitchV2.TypeIndexShowsOnlyGroup | src/brickv/plugin_system/plugins/remote_switch_v2/remote_switch_v2.py:142-149 | After type_index_changed(index) a widget of any group is visible iff it is in the selected group, even when another group shares it; other widgets keep their state. |
| RemoteSwitchV2.SetEach | src/brickv/plugin_system/plugins/remote_switch_v2/remote_switch_v2.py:142-149 | Calls setVisible(v) on each widget, in order: they all end with v. |
| RemoteSwitchV2.SetVisibility | src/brickv/plugin_system/plugins/remote_switch_v2/remote_switch_v2.py:142-149 | The loops of type_index_changed compute AfterTypeIndex. |
| RemoteSwitchV2.RemoteTypeOf | src/brickv/plugin_system/plugins/remote_switch_v2/remote_switch_v2.py:260-283 | The remote type remote_type_changed(index) configures: index + 1 for the three known entries. |
| RemoteSwitchV2.RemoteTypesDistinct | src/brickv/plugin_system/plugins/remote_switch_v2/remote_switch_v2.py:260-283 | Distinct combo entries configure distinct remote types, each with its own status callback. |
| RemoteSwitchV2.ClickCommands | src/brickv/plugin_system/plugins/remote_switch_v2/remote_switch_v2.py:285-310 | The requests button_clicked(switchTo) sends for each remote type, repeats first. |
| RemoteSwitchV2.DimCommands | src/brickv/plugin_system/plugins/remote_switch_v2/remote_switch_v2.py:198-214 | The requests dim_clicked sends: a dim request only for type B. |
| RemoteSwitchV2.SwitchAllClickBroadcasts | src/brickv/plugin_system/plugins/remote_switch_v2/remote_switch_v2.py:292-303 | With switch-all checked, a type-B switch addresses every socket whatever address and unit say. |
| RemoteSwitchV2.SwitchAllDimBroadcasts | src/brickv/plugin_system/plugins/remote_switch_v2/remote_switch_v2.py:203-212 | With switch-all checked, dimming addresses every socket whatever address and unit say. |
| RemoteSwitchV2.TypeAClickSendsBoxCodes | src/brickv/plugin_system/plugins/remote_switch_v2/remote_switch_v2.py:285-297 | A type-A switch sends the house and receiver codes the check boxes show. |
| RemoteSwitchV2.RemoteSwitch.constructor | src/brickv/plugin_system/plugins/remote_switch_v2/remote_switch_v2.py:39-134 | A new plugin: both codes 0, switch-all off, the type-A group shown, remote type A configured with its callbacks registered, all buttons enabled. |
| RemoteSwitchV2.RemoteSwitch.TypeIndexChanged | src/brickv/plugin_system/plugins/remote_switch_v2/remote_switch_v2.py:142-149 | type_index_changed(index): visibility becomes AfterTypeIndex of the old one. |
| RemoteSwitchV2.RemoteSwitch.HouseValueChanged | src/brickv/plugin_system/plugins/remote_switch_v2/remote_switch_v2.py:151-156 | house_value_changed(state): the spin box holds state and the boxes show its bits. |
| RemoteSwitchV2.RemoteSwitch.ReceiverValueChanged | src/brickv/plugin_system/plugins/remote_switch_v2/remote_switch_v2.py:158-163 | receiver_value_changed(state): the receiver twin. |
| RemoteSwitchV2.RemoteSwitch.HCheckStateChanged | src/brickv/plugin_system/plugins/remote_switch_v2/remote_switch_v2.py:173-179 | h_check_state_changed: the house spin box becomes Encode of the boxes. |
| RemoteSwitchV2.RemoteSwitch.RCheckStateChanged | src/brickv/plugin_system/plugins/remote_switch_v2/remote_switch_v2.py:181-187 | r_check_state_changed: the receiver spin box becomes Encode of the boxes. |
| RemoteSwitchV2.RemoteSwitch.SwitchAllStateChanged | src/brickv/plugin_system/plugins/remote_switch_v2/remote_switch_v2.py:165-171 | switchall_state_changed: address and unit are editable iff switch-all is unchecked. |
| RemoteSwitchV2.RemoteSwitch.ButtonClicked | src/brickv/plugin_system/plugins/remote_switch_v2/remote_switch_v2.py:285-310 | button_clicked: both switch buttons disabled, and the ClickCommands sent. |
| RemoteSwitchV2.RemoteSwitch.DimClicked | src/brickv/plugin_system/plugins/remote_switch_v2/remote_switch_v2.py:198-214 | dim_clicked: the dim button disabled, and the DimCommands sent. |
| RemoteSwitchV2.RemoteSwitch.RemoteTypeChanged | src/brickv/plugin_system/plugins/remote_switch_v2/remote_switch_v2.py:260-283 | remote_type_changed(index): configure remote type index + 1 and register its status callback. |
| RemoteSwitchV2.RemoteSwitch.CbSwitchingDone | src/brickv/plugin_system/plugins/remote_switch_v2/remote_switch_v2.py:312-318 | cb_switching_done: switch and dim buttons enabled again, with their texts restored. |
| SettingsMobileInternet.Strip | src/brickv/plugin_system/plugins/red/scripts/settings_mobile_internet.py:276-280 | strip() removes white space from both ends: the result neither starts nor ends with white space. |
| SettingsMobileInternet.StripAround | src/brickv/plugin_system/plugins/red/scripts/settings_mobile_internet.py:276-280 | strip() of a core without surrounding white space, padded with white space, is the core. |
| SettingsMobileInternet.IndexOf | src/brickv/plugin_system/plugins/red/scripts/settings_mobile_internet.py:255 | find(): the first position where sub occurs, or none when it occurs nowhere. |
| SettingsMobileInternet.Split1 | src/brickv/plugin_system/plugins/red/scripts/settings_mobile_internet.py:255 | split(sep, 1): one or two parts; two parts joined by sep give the string back. |
| SettingsMobileInternet.Split1First | src/brickv/plugin_system/plugins/red/scripts/settings_mobile_internet.py:255 | split(sep, 1) gives two parts iff sep occurs, and the first part then does not contain it. |
| SettingsMobileInternet.IndexOfCharAfter | src/brickv/plugin_system/plugins/red/scripts/settings_mobile_internet.py:296 | The first occurrence of a one-character separator is right after a prefix free of it. |
| SettingsMobileInternet.SplitChar | src/brickv/plugin_system/plugins/red/scripts/settings_mobile_internet.py:301-307 | split(c): at least one field, none containing c. |
| SettingsMobileInternet.SplitJoinFirst | src/brickv/plugin_system/plugins/red/scripts/settings_mobile_internet.py:301 | Splitting a field, c and a rest gives the field, then the split of the rest. |
| SettingsMobileInternet.SplitJoin | src/brickv/plugin_system/plugins/red/scripts/settings_mobile_internet.py:301 | Splitting a join of c-free fields gives the fields back. |
| SettingsMobileInternet.JoinSplit | src/brickv/plugin_system/plugins/red/scripts/settings_mobile_internet.py:301 | Joining what split(c) returned with c gives the string back. |
| SettingsMobileInternet.RemoveChar | src/brickv/plugin_system/plugins/red/scripts/settings_mobile_internet.py:314 | replace(c, ''): c is gone and every other character is kept. |
| SettingsMobileInternet.ReplaceChar | src/brickv/plugin_system/plugins/red/scripts/settings_mobile_internet.py:145 | replace(c, d) for characters: same length, every c becomes d, all else stays. |
| SettingsMobileInternet.ReadLines | src/brickv/plugin_system/plugins/red/scripts/settings_mobile_internet.py:292 | readlines(): non-empty lines, each ending after its newline. |
| SettingsMobileInternet.ReadLinesLine | src/brickv/plugin_system/plugins/red/scripts/settings_mobile_internet.py:292 | A line whose only newline is its last character is read as one line, before the rest. |
| SettingsMobileInternet.ReadLinesWithout | src/brickv/plugin_system/plugins/red/scripts/settings_mobile_internet.py:292 | A character absent from the text is absent from each of its lines. |
| SettingsMobileInternet.LineEnd | src/brickv/plugin_system/plugins/red/scripts/settings_mobile_internet.py:252 | The first line break at or after k, or the end of the string. |
| SettingsMobileInternet.SplitLines | src/brickv/plugin_system/plugins/red/scripts/settings_mobile_internet.py:252 | splitlines(): no line holds a break, and an empty output has no lines. |
| SettingsMobileInternet.ParseLsusbLineAt | src/brickv/plugin_system/plugins/red/scripts/settings_mobile_internet.py:255-282 | A line with a colon followed by " ID " yields the stripped bus/device part and what follows the ID. |
| SettingsMobileInternet.ParseLsusbLine | src/brickv/plugin_system/plugins/red/scripts/settings_mobile_internet.py:254-282 | A modem taken from an lsusb line has its pair, name and bus/device fields free of surrounding white space. |
| SettingsMobileInternet.Entry | src/brickv/plugin_system/plugins/red/scripts/settings_mobile_internet.py:254-284 | One lsusb line adds at most one modem. |
| SettingsMobileInternet.ModemsOf | src/brickv/plugin_system/plugins/red/scripts/settings_mobile_internet.py:250-284 | The modems of a list of lines: at most one per line. |
| SettingsMobileInternet.ModemsOfAppend | src/brickv/plugin_system/plugins/red/scripts/settings_mobile_internet.py:254-284 | The modems of concatenated output are the concatenation of the modems. |
| SettingsMobileInternet.ModemsOfLine | src/brickv/plugin_system/plugins/red/scripts/settings_mobile_internet.py:254-284 | A single line contributes its parsed modem, or nothing when it is skipped. |
| SettingsMobileInternet.ListModems | src/brickv/plugin_system/plugins/red/scripts/settings_mobile_internet.py:250-287 | The loop of REFRESH fills list_modem with exactly ModemsOf of the output lines. |
| SettingsMobileInternet.LsusbLineRoundTrip | src/brickv/plugin_system/plugins/red/scripts/settings_mobile_internet.py:254-284 | `Bus 001 Device 002: ID 12d1:1506 Some Modem` yields its bus/device text, vendor:product pair and name. |
| SettingsMobileInternet.LsusbLineWithoutNameSkipped | src/brickv/plugin_system/plugins/red/scripts/settings_mobile_internet.py:270-273 | A line with nothing after the pair is skipped. |
| SettingsMobileInternet.LsusbLineBlankNameIsPair | src/brickv/plugin_system/plugins/red/scripts/settings_mobile_internet.py:275-278 | A lone space after the pair makes the pair stand in for the name. |
| SettingsMobileInternet.LsusbLineNeedsId | src/brickv/plugin_system/plugins/red/scripts/settings_mobile_internet.py:262-263 | A line whose first colon is not followed by " ID " is skipped. |
| SettingsMobileInternet.FindWholeWordIff | src/brickv/plugin_system/plugins/red/scripts/settings_mobile_internet.py:168-169 | The whole-word search finds word iff some position holds it, case-insensitively, between non-word characters. |
| SettingsMobileInternet.ClassifyKey | src/brickv/plugin_system/plugins/red/scripts/settings_mobile_internet.py:310-334 | A parameter name is classed under a key only when it holds that key's tag as a whole word. |
| SettingsMobileInternet.UnclassedIffNoTag | src/brickv/plugin_system/plugins/red/scripts/settings_mobile_internet.py:310-334 | A parameter name is ignored exactly when it holds none of the six tags as a whole word. |
| SettingsMobileInternet.ApnDoesNotShadowApnUser | src/brickv/plugin_system/plugins/red/scripts/settings_mobile_internet.py:320-326 | APN is tested before APN_USER and APN_PASS but does not match them: _ is a word character. |
| SettingsMobileInternet.KeysIgnoreCase | src/brickv/plugin_system/plugins/red/scripts/settings_mobile_internet.py:168-169 | Keys are matched regardless of case. |
| SettingsMobileInternet.CleanValue | src/brickv/plugin_system/plugins/red/scripts/settings_mobile_internet.py:313-314 | A value as stored: stripped, and holding no single or double quote. |
| SettingsMobileInternet.ApplyParams | src/brickv/plugin_system/plugins/red/scripts/settings_mobile_internet.py:306-334 | The parameters of a line only set configured fields, each to a value without quotes; the modem list is untouched. |
| SettingsMobileInternet.ApplyLines | src/brickv/plugin_system/plugins/red/scripts/settings_mobile_internet.py:290-334 | Reading the file's lines only sets configured fields, each to a value without quotes; the modem list is untouched. |
| SettingsMobileInternet.ReadParams | src/brickv/plugin_system/plugins/red/scripts/settings_mobile_internet.py:306-334 | The loop over one line's parameters computes ApplyParams. |
| SettingsMobileInternet.ReadConfiguration | src/brickv/plugin_system/plugins/red/scripts/settings_mobile_internet.py:290-334 | The loop over the configuration file's lines computes ApplyLines. |
| SettingsMobileInternet.Refresh | src/brickv/plugin_system/plugins/red/scripts/settings_mobile_internet.py:240-336 | REFRESH fails with exit status 1 iff lsusb fails or prints nothing; otherwise the configuration is Refreshed of the output and the file. |
| SettingsMobileInternet.Refreshed | src/brickv/plugin_system/plugins/red/scripts/settings_mobile_internet.py:250-334 | The report lists the modems lsusb printed; every configured field is unset or a value without quotes, and all are unset without a configuration file. |
| SettingsMobileInternet.GetDns | src/brickv/plugin_system/plugins/red/scripts/settings_mobile_internet.py:171-181 | get_DNS: none without resolv.conf; none iff no line is a nameserver line; otherwise the address of the first one. |
| SettingsMobileInternet.NameserverOf | src/brickv/plugin_system/plugins/red/scripts/settings_mobile_internet.py:176-181 | The address of a nameserver line is a single token: stripped and without spaces. |
| SettingsMobileInternet.NameserverLineAddress | src/brickv/plugin_system/plugins/red/scripts/settings_mobile_internet.py:176-181 | A line `nameserver 8.8.8.8`, or one whose first field merely contains nameserver such as `#nameserver 8.8.8.8`, yields its address. |
| SettingsMobileInternet.OperatorParams | src/brickv/plugin_system/plugins/red/scripts/settings_mobile_internet.py:133-143 | The filled-in fields of the template: seven with a SIM PIN, six without. |
| SettingsMobileInternet.UmtskeeperConfiguration | src/brickv/plugin_system/plugins/red/scripts/settings_mobile_internet.py:31-43 | The configuration opens with the deviceName and sakisSwitches lines, followed by the sakisOperators line holding the single-quoted operators. |
| SettingsMobileInternet.PrepareTestCommandAndConfiguration | src/brickv/plugin_system/plugins/red/scripts/settings_mobile_internet.py:125-166 | The test command is the sakis3g call followed by the operators; when no argument holds a double quote, the configuration's sakisOperators line holds those operators with double quotes turned into single ones. |
| SettingsMobileInternet.SimPinIffGiven | src/brickv/plugin_system/plugins/red/scripts/settings_mobile_internet.py:136-166 | The operators start with the SIM_PIN field iff a PIN was given. |
| SettingsMobileInternet.ConfigurationQuotes | src/brickv/plugin_system/plugins/red/scripts/settings_mobile_internet.py:145-150 | Replacing the template's double quotes before the values are inserted equals replacing them in the whole string, when no value holds one. |
| SettingsMobileInternet.ValueQuotesKept | src/brickv/plugin_system/plugins/red/scripts/settings_mobile_internet.py:145 | A double quote inside a value survives into the configuration: the replacement applies to the template only. |
| SettingsMobileInternet.TestConnection | src/brickv/plugin_system/plugins/red/scripts/settings_mobile_internet.py:87-96 | test_connection returns 0 exactly when the test command succeeds and 2 otherwise; the command runs once, with the modem processes killed before and after. |
| SettingsMobileInternet.EnableStartSystemdService | src/brickv/plugin_system/plugins/red/scripts/settings_mobile_internet.py:98-107 | 0 exactly when enabling and starting succeed, 3 exactly when enabling fails, else 4; the service is started only once enabled, and a failure ends with stopping, disabling and removing it. |
| SettingsMobileInternet.Connect | src/brickv/plugin_system/plugins/red/scripts/settings_mobile_internet.py:339-381 | Exit status 1 exactly with too few arguments, and then nothing runs; otherwise the old service is removed first and the test command runs next; the unit file is written exactly after a successful test; success ends with starting the service. |
| SettingsMobileInternet.ConnectExitCodes | src/brickv/plugin_system/plugins/red/scripts/settings_mobile_internet.py:339-378 | CONNECT exits 1 on too few arguments, 2 when the test fails, 3 when enabling fails, 4 when starting fails, else 0; the configuration is written only after a passed test and a service failure is cleaned up. |
| SettingsMobileInternet.WrittenFieldsSplit | src/brickv/plugin_system/plugins/red/scripts/settings_mobile_internet.py:301 | Splitting the written operators at spaces gives back the written fields. |
| SettingsMobileInternet.CleanQuoted | src/brickv/plugin_system/plugins/red/scripts/settings_mobile_internet.py:313-314 | A single-quoted value, with a trailing double quote when it ends the line, cleans to the value. |
| SettingsMobileInternet.ApplyWrittenParam | src/brickv/plugin_system/plugins/red/scripts/settings_mobile_internet.py:306-334 | One written parameter sets the key its name classifies as to its value. |
| SettingsMobileInternet.ApplyWrittenSimPin | src/brickv/plugin_system/plugins/red/scripts/settings_mobile_internet.py:306-334 | The written SIM_PIN field, with the line's opening quote, sets sim_card_pin. |
| SettingsMobileInternet.ApplyWrittenOther | src/brickv/plugin_system/plugins/red/scripts/settings_mobile_internet.py:306-334 | OTHER='USBMODEM' names no key REFRESH reads and changes nothing. |
| SettingsMobileInternet.ApplyWrittenTail | src/brickv/plugin_system/plugins/red/scripts/settings_mobile_internet.py:306-334 | The fields after the PIN and dial number set apn, username, password and modem_configured. |
| SettingsMobileInternet.ApplyWrittenFields | src/brickv/plugin_system/plugins/red/scripts/settings_mobile_internet.py:306-334 | Reading the written fields back sets every key the CONNECT arguments name. |
| SettingsMobileInternet.TagHasO | src/brickv/plugin_system/plugins/red/scripts/settings_mobile_internet.py:293 | A line containing the sakisOperators tag contains an upper-case O, so lines without one are skipped. |
| SettingsMobileInternet.ConfLineWithout | src/brickv/plugin_system/plugins/red/scripts/settings_mobile_internet.py:31-43 | A character in neither key, value nor the line's frame is not in the line. |
| SettingsMobileInternet.ConfLineSingle | src/brickv/plugin_system/plugins/red/scripts/settings_mobile_internet.py:31-43 | A configuration line is one line when neither key nor value holds a newline. |
| SettingsMobileInternet.ReadOperatorsLine | src/brickv/plugin_system/plugins/red/scripts/settings_mobile_internet.py:296-301 | The sakisOperators line is cut at its first = and its stripped right side split at spaces. |
| SettingsMobileInternet.ConfigurationLines | src/brickv/plugin_system/plugins/red/scripts/settings_mobile_internet.py:31-43 | The written file is read as the device line, the switches line, the operators line and the remaining lines. |
| SettingsMobileInternet.FixedLinesSkipped | src/brickv/plugin_system/plugins/red/scripts/settings_mobile_internet.py:290-294 | The fixed lines of the written configuration leave the configuration as it was. |
| SettingsMobileInternet.OnlyOperatorsLineApplies | src/brickv/plugin_system/plugins/red/scripts/settings_mobile_internet.py:290-334 | Of the written file's lines only the operators line changes the configuration. |
| SettingsMobileInternet.ReadWrittenConfiguration | src/brickv/plugin_system/plugins/red/scripts/settings_mobile_internet.py:290-334 | Reading the written configuration on top of conf sets exactly what the arguments name. |
| SettingsMobileInternet.ConfigurationRoundTrip | src/brickv/plugin_system/plugins/red/scripts/settings_mobile_internet.py:339-369 | What CONNECT writes, REFRESH reads back: every key set to its CONNECT argument, the SIM PIN only when one was given, the modem list untouched. |
| WireFormat.TokenSize | src/brickv/bindings/bricklet_silent_stepper_v2.py:254 | A token takes count times the element size; n booleans take ceil(n/8) bytes, so '2!' with its header is the declared 9 bytes. |
| WireFormat.AppendSize | src/brickv/bindings/bricklet_sound_pressure_level.py:122 | The size of two formats written one after the other is the sum of their sizes. |

## Left out

- The IP connection (`send_request`, sockets, sequence numbers, timeouts, threads). It is not part of this model. A request is its `Request` value. A streamed getter's low-level calls are a sequence of responses. A failed low-level call is the `NoResponse` error, which the model raises when the responses run out.
- `stream_lock` in `get_spectrum` and `get_waveform`. It only serialises threads; the loops are modelled sequentially.
- The bindings' single-request getters and setters. They pass their arguments to `send_request` and unpack the reply. Only the formats and lengths they declare are modelled. The transport that packs bytes is not shown, so the packed sizes follow the documented format letters.
- All Qt work: widgets, labels, style sheets, message boxes, signals, painting and the tree view. Of it the model keeps only what the core logic reads or writes: the combo-box entries, check boxes, button enabled states and texts, and widget visibility.
- MainWindow.Enumerate: the connection bookkeeping of `cb_enumerate` is not modelled: `add_to_connections`, the hot-plug status messages, plugin creation, tab windows and `update_firmware_version_latest`. Also left out: the `pause_plugin` on a CONNECTED re-enumeration and the unconditional `resume_plugin` after it (mainwindow.py:879-880 and 948), which restart a running plugin; the `reverse_connection` hot-plug fix-up (mainwindow.py:866-874); and the plugin and tab teardown inside `remove_device_info`. The model keeps the inventory entry: removal, invalidation, classification and the refreshed fields.
- RemoteSwitchV2.RemoteSwitch.HouseValueChanged and RemoteSwitchV2.RemoteSwitch.ReceiverValueChanged: each Qt handler is one step. Qt signal re-entry (`setChecked` firing `h_check_state_changed`, which calls `setValue`, which fires `house_value_changed` again) is collapsed. For the spin boxes' range 0..31, that re-entry settles on the state the model gives.
- MainWindow: `config.HOST_INFO_COUNT` and the device identifiers of Master, RED, HAT, HAT Zero and Isolator Bricks come from modules that are not part of this model. They are parameters. `time.monotonic()` is a parameter.
- MainWindow.Window.constructor: requires the loaded host list to hold between one and `HOST_INFO_COUNT` rows. That is what `config.get_host_infos` (called at `mainwindow.py:179`) is assumed to return; the config module is not part of this model.
- MainWindow.Lower: `str.lower` folds only the ASCII letters A to Z. Python 3 lowers every Unicode letter, but the positions the devices report are ASCII port letters and digits.
- MainWindow.InvalidationIgnoresPositionCase: case is ignored for ASCII letters only, as MainWindow.Lower states; MainWindow.CacheInvalid compares positions the same way.
- MainWindow.ApplyEnumeration: a fresh info's `enumeration_type` is `None` until the first enumeration sets it. Its real default lives in `infos.py`, which is not part of this model; every refresh overwrites it anyway.
- MainWindow.GiveUpDependsOnlyOnCount: assumes the clock is monotonic (each recorded time is at most `now`). That is what `time.monotonic()` guarantees.
- PlotWidget: x and y values are `real`. Float rounding, `float()` conversion of integer inputs and `y_type` are not modelled.
- PlotWidget: `update_y_min_max_scale` and everything it computes are not modelled. That is the log10/floor/ceil tick layout. `fstr`, `istr`, the scale and curve drawing, the partial-update rectangle, `PlotWidget.add_new_data` (wall-clock timestamps and gap filling) and the moving-average controls are not modelled either.
- PlotWidget.Plot.SetData: requires x and y to be non-empty and of equal length. The comment at `set_data` promises non-empty lists, and the parallel curve lists need equal lengths. The promised ascending order of x is not needed by any property proved here.
- RemoteSwitchV2: the texts of the type combo box come from a `.ui` file that is not part of this model. `button_clicked` compares them, so the model takes the text as a parameter.
- RemoteSwitchV2: the following are not modelled:
  - the dim slider/spin-box mirroring;
  - `cb_remote_status` and `cb_update_remote_input`, which only format received values into labels;
  - the repeats spin box's own state;
  - the no-op `start`, `stop` and `destroy`.
- SettingsMobileInternet: the GET_STATUS action (parsing of `sakis3g info` and `systemctl status` output) is not modelled.
- SettingsMobileInternet: the following are not modelled; CONNECT records them as steps, with their exit codes as inputs:
  - `subprocess`, `os.system`, `killall`, `shlex.split` and `os.remove`;
  - the systemd unit text that CONNECT writes.
- SettingsMobileInternet: the JSON printing of REFRESH is not modelled; REFRESH returns the configuration record.
- SettingsMobileInternet: the top-level argument check and an unknown action (exit 1) are not modelled. Neither is the catch-all handler that turns any other exception into exit status 1.
- SettingsMobileInternet.ConfigurationRoundTrip: proved only for argument values without spaces, newlines, quotes or `=`. A value with one of these is split or cleaned differently when REFRESH reads it back. For example, a password with a space loses everything after the space.
- SettingsMobileInternet.FindWholeWordIff: `\w` is taken as ASCII letters, digits and `_`, which is Python 2's default for byte strings.
