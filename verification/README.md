# Nelko P21 label-printer protocol codec, in Dafny

This project models the byte-level protocol of a Python script that drives a Nelko P21 label printer over a serial link. It also models the script's stand-alone checksum checker. The model covers:

- the CRC-16 engine and the frame check;
- the 16-byte status record, its fields and its text rendering, including the "no readable RFID tag" branch;
- the five IntEnum classes, as value and name maps;
- the text envelopes of the CONFIG and BATTERY answers, and their binary payloads;
- the one-byte readiness answer;
- the CR LF framing of text commands;
- the timeout and beep commands;
- the print job, and the 0xFF padding of its bitmap;
- from the test script: the loop-based CRC copy, its serialiser, the frame judge and the sample frame.

Modules, in dependency order:

- `Wrappers`: `Option`, `Result`, and the `Error` values that stand for the script's exceptions. A `ValueError` from a failed check or an enum constructor, and a `struct.error` from a size mismatch, each become an `Err`. A function that returns `None` returns `None` here too.
- `PyBuiltins`: the Python semantics the codec relies on, written out:
  - slicing with negative and clamped bounds;
  - `startswith`, `int.from_bytes`, `int.to_bytes(2, "big")` (which can overflow);
  - `str(int)` and `hex(int)`;
  - UTF-8 `str.encode()`;
  - substring search.
- `Checksum`: the CRC-16 register and `validate_checksum`.
  - The register follows the CRC-16/MODBUS parameterisation of section 6.2.2 and Appendix B of the MODBUS over Serial Line Specification V1.02: reflected polynomial 0xA001, initial value 0xFFFF, no final XOR.
  - Unlike MODBUS, it is serialised high byte first.
  - The register is a Python int, so it is modelled on `nat` with `^` written out. Its contract says it never leaves 16 bits.
  - Every step of the register can be undone, so changing any single byte of a valid frame makes it fail the check.
- `ChecksumVectors`: known answers, worked out round by round: the checksum of one zero byte (40 BF), the CRC-16/MODBUS check value (0x4B37 for the ASCII digits "123456789") and the checksum of the sample status frame's body (0D 22).
- `Enums`: `PaperType`, `PrinterReadinessStatus`, `PaperColor`, `TimeoutSetting` and `BeepSetting`, each with:
  - its numeric values;
  - the partial constructor `Enum(value)`;
  - its `__str__`.
- `Status`: `unpack_printer_status`, `PrinterStatus`, `get_printer_status` (after the transport) and `PrinterStatus.__str__`. The script's global `DEBUG` flag becomes a parameter.
- `Responses`: `clean_serial_response`, `DeviceConfig`, `get_config`, `BatteryData`, `get_battery`, `get_readiness_status` and `BatteryData.__str__`.
- `Commands`: the framing in `send_command`, `get_timeout_command`, `get_beep_command`, `build_print_command` and the `ljust(3408, b"\xff")` padding.
- `SerialTest`: `int_to_bytes_low`, `get_crc16`, `judge_serial_number_is_ok` and the sample frame of `test.py`.

Every property is stated against an independent partner:
- an inverse, such as the packing of a record or a reader of a command;
- a reference definition, such as the CRC register, the BCD encoding or Python's `to_bytes`;
- an invariant, such as the 16-bit bound or the absence of a character from a rendering.

Some behaviour of the code, stated plainly:

- **Enum values.** An unlisted value in a status record makes the IntEnum constructor raise a `ValueError`, and `UnpackPrinterStatus` returns that error. The `case _: "Unknown"` arms of `__str__` are therefore dead, except for `PaperColor.UNKNOWN` (0), which has no case of its own and reaches the wildcard.
- **Config payload size.** The struct format `>hBBBBBBB?` is a 2-byte short and eight single bytes, 10 bytes in all, and `get_config` asks `clean_serial_response` for exactly 10 (p21_print.py:278-279).
- **Print arguments.** `build_print_command` checks neither density, copies nor the bitmap length. The range "1-15" in the `--density` help text (p21_print.py:372) is not enforced anywhere.
- **Command framing.** `send_command` appends CR LF to every text command. The status query `ESC ! o CR LF` therefore goes out with two CR LFs, and the readiness query `ESC ! ?` gets one.
- **Byte order in the test script.** The docstring of `int_to_bytes_low` (test.py:9) calls its output little-endian, but the function writes the high byte first. That order matches `crc16`, so the two checkers agree.

## Model

| member | source | states |
|---|---|---|
| `PyBuiltins.ToBytesBig2` | p21_print.py:28 | `to_bytes(2, "big")` succeeds exactly below 2^16, and the two bytes read back big-endian as the value |
| `PyBuiltins.LastTwoSplit` | p21_print.py:112-114 | `data[:-2]` and `data[-2:]` always recombine to `data`. With 2 or more bytes they split before the last two; below that, `data[-2:]` is the whole input and `data[:-2]` is empty |
| `Checksum.Register` | p21_print.py:18-26 | the CRC register, which starts at 0xFFFF and takes 8 shift rounds with 0xA001 per byte, stays below 2^16 for every input, so serialising it can never overflow |
| `Checksum.UpdateInjective` | p21_print.py:20-26 | one pass of the outer loop loses nothing: on 16-bit registers, equal results mean equal registers exactly when the bytes are equal |
| `Checksum.RegisterSeesSingleChange` | p21_print.py:18-26 | two inputs of the same length that differ in exactly one byte end with different registers |
| `Checksum.Crc16` | p21_print.py:18-28 | the checksum is always exactly two bytes, high byte first, whose big-endian value is the final register; the empty input gives FF FF |
| `Checksum.ValidateChecksum` | p21_print.py:110-118 | succeeds if and only if the frame has at least 2 bytes and its last two equal the checksum of the rest. Otherwise the error carries `data[-2:]` and `crc16(data[:-2])` |
| `Checksum.ShortFrameRejected` | p21_print.py:110-118 | every frame shorter than two bytes is rejected |
| `Checksum.ChecksumAppendedValidates` | p21_print.py:110-118 | any payload followed by its own checksum validates |
| `Checksum.SingleByteCorruptionDetected` | p21_print.py:110-118 | a valid frame with any single byte changed, in the payload or in the checksum, fails the check |
| `ChecksumVectors.ZeroByteChecksum` | p21_print.py:18-28 | the checksum of the single byte 00 is 40 BF |
| `ChecksumVectors.CheckValue` | p21_print.py:18-28 | the checksum of the ASCII digits "123456789" is 4B 37, the CRC-16/MODBUS check value 0x4B37 |
| `ChecksumVectors.SampleBodyChecksum` | p21_print.py:18-28 | the checksum of the sample status body `200c011203000301121215280f0e` is 0D 22 |
| `Checksum.ValidFrameShape` | p21_print.py:110-118 | a frame validates exactly when it is some payload followed by that payload's checksum |
| `Enums.Member` | p21_print.py:134-141 | constructing an enum member succeeds exactly for a listed value, and otherwise raises a ValueError naming the class and the value |
| `Enums.PaperTypeOf` | p21_print.py:49-52 | `PaperType(v)` exists exactly for 0, 1 and 2, and its value is `v` |
| `Enums.ReadinessOf` | p21_print.py:66-70 | `PrinterReadinessStatus(v)` exists exactly for 0, 1, 4 and 32, and its value is `v` |
| `Enums.PaperColorOf` | p21_print.py:86-92 | `PaperColor(v)` exists exactly for 0 and for 2 through 6, and its value is `v` |
| `Enums.TimeoutOf` | p21_print.py:212-216 | `TimeoutSetting(v)` exists exactly for 0 through 3, and its value is `v` |
| `Enums.BeepOf` | p21_print.py:232-234 | `BeepSetting(v)` exists exactly for 0 and 1, and its value is `v` |
| `Enums.BeepOfBool` | p21_print.py:37 | `BeepSetting(flag)` for a bool never raises, and it is ON exactly when the flag is true |
| `Enums.PaperTypeName` | p21_print.py:54-63 | no member renders as "Unknown", so the wildcard arm is dead |
| `Enums.ReadinessName` | p21_print.py:72-83 | no member renders as "Unknown", so the wildcard arm is dead |
| `Enums.PaperColorName` | p21_print.py:94-107 | a colour renders as "Unknown" exactly when it is UNKNOWN |
| `Enums.TimeoutName` | p21_print.py:218-229 | no member renders as "Unknown", so the wildcard arm is dead |
| `Enums.BeepName` | p21_print.py:234-243 | no member renders as "Unknown", so the wildcard arm is dead |
| `Enums.ValuesRoundTrip` | p21_print.py:49-92 | every member of every enum is recovered from its numeric value |
| `Enums.NamesDistinct` | p21_print.py:54-107 | within each enum, distinct members render differently |
| `Status.UnpackPrinterStatus` | p21_print.py:127-148 | decoding succeeds exactly for 16 bytes whose bytes 0, 4 and 7 are listed enum values. A wrong size is a struct error. Readiness is checked before colour. The record holds bytes 0-14 at their documented positions |
| `Status.UnpackPackRoundTrip` | p21_print.py:127-148 | every record is recovered from its 16-byte layout, whatever byte 15 holds |
| `Status.DecodeStatusFrame` | p21_print.py:121-124 | a status answer with a valid checksum decodes exactly as its 16 bytes unpack. A checksum failure is reported unchanged. The field "unknown 7" (byte 14) is the checksum's high byte |
| `Status.DecodeFramedBody` | p21_print.py:132-148 | a 14-byte body with valid enum bytes, followed by its checksum, decodes with readiness, data length, colour, border radius, paper type, label length, maximum width and label width taken from bytes 0, 1, 4, 6, 7, 11, 12 and 13 |
| `Status.NoTagReportedIffBlankLabel` | p21_print.py:150-158 | the rendering contains "The printer found no readable RFID tag." exactly when label width and label length are both 0, with or without the debug lines |
| `Status.StatusText` | p21_print.py:150-158 | the rendering's first line is the readiness name |
| `Status.NoTagDependsOnlyOnLabelSize` | p21_print.py:150-158 | two decodable frames that agree on bytes 11 and 13 agree on whether the no-tag message appears |
| `Responses.CleanSerialResponse` | p21_print.py:292-301 | the payload is returned only when the response starts with the encoded prefix and the slice has the expected length. A positive length forces the response to be prefix plus payload plus two bytes. Otherwise it raises with the response |
| `Responses.EnvelopeShape` | p21_print.py:292-301 | for an ASCII prefix, a response is accepted with payload `p` if and only if it is the prefix, then `p` of the expected length, then any two bytes |
| `Responses.Int16Big` | p21_print.py:279 | struct's `>h` yields a signed 16-bit value congruent to the big-endian reading of its two bytes |
| `Responses.UnpackConfig` | p21_print.py:31-37 | a payload decodes exactly when it is 10 bytes with a timeout byte of at most 3. A wrong size is a struct error and a bad timeout is a ValueError |
| `Responses.UnpackConfigKeepsPayload` | p21_print.py:31-37 | the configuration holds the payload's first nine bytes exactly (DPI as a short, two versions, timeout); the beep byte reduces to 0 or 1 |
| `Responses.ConfigRoundTrip` | p21_print.py:31-37 | every configuration whose DPI fits a short is recovered from its 10-byte layout |
| `Responses.GetConfig` | p21_print.py:276-280 | an answer that is "CONFIG ", 10 payload bytes and two more gives exactly the payload's decoding, including its errors. Any other answer raises with the response |
| `Responses.GetConfigOfPayload` | p21_print.py:276-280 | any 10 payload bytes in a CONFIG envelope decode exactly when the timeout byte is at most 3, and any nonzero beep byte reads as on |
| `Responses.GetConfigOfEnvelope` | p21_print.py:276-280 | "CONFIG " followed by a configuration's layout and any two bytes decodes to that configuration |
| `Responses.BatteryLevel` | p21_print.py:178-180 | the level read from any byte is at most 165 |
| `Responses.BatteryLevelReadsBcd` | p21_print.py:178-180 | on bytes whose two nibbles are decimal digits, the level is the two-digit BCD number and encodes back to the byte |
| `Responses.BatteryLevelExamples` | p21_print.py:178-180 | 0x42 reads as 42, 0x99 as 99 and 0xFF as 165 |
| `Responses.UnpackBattery` | p21_print.py:176-182 | a battery payload decodes exactly when it is 2 bytes; charging is byte 1 being nonzero |
| `Responses.GetBattery` | p21_print.py:283-290 | a BATTERY answer decodes exactly when it is "BATTERY ", 2 payload bytes and two more. The level comes from the first payload byte, and charging is the second payload byte being nonzero |
| `Responses.GetBatteryOfEnvelope` | p21_print.py:283-290 | "BATTERY ", a BCD level below 100, a charging flag and any two bytes decode to that level and flag |
| `Responses.GetReadinessStatus` | p21_print.py:270-273 | the short status decodes exactly when it is one byte holding a readiness value, and the result has that value |
| `Responses.ReadinessAnswerRoundTrip` | p21_print.py:270-273 | every readiness state is recognised from its one-byte answer |
| `Responses.BatteryText` | p21_print.py:184-209 | the rendering's first line reads the level back: the numeral after "Battery Level: " parses to the level and ends at "%" |
| `Responses.UnplugNoteIffCharging` | p21_print.py:184-209 | the battery rendering contains the "Unplug the printer …" note exactly when the printer is charging |
| `Commands.FrameText` | p21_print.py:335 | a text command goes out as its UTF-8 bytes followed by CR LF |
| `Commands.FrameTextReadsBack` | p21_print.py:335 | an ASCII command reads back from the wire as the command followed by "\r\n" |
| `Commands.StatusQueryFrame` | p21_print.py:121-122 | the framed status query is `1B 21 6F 0D 0A 0D 0A`, with CR LF twice |
| `Commands.ReadinessQueryFrame` | p21_print.py:270-271 | the framed readiness query is `1B 21 3F 0D 0A` |
| `Commands.ReplyQueryFrames` | p21_print.py:276-285 | the framed `CONFIG?` and `BATTERY?` queries are their ASCII bytes followed by `0D 0A` |
| `Commands.TimeoutSettingOfMinutes` | p21_print.py:304-317 | exactly 0, 15, 30 and 60 minutes select a setting, and the selected setting stands for that many minutes |
| `Commands.TimeoutCommand` | p21_print.py:304-319 | a command exists exactly for 0, 15, 30 and 60 minutes. It is "TIMEOUT " followed by one character |
| `Commands.TimeoutCommandRoundTrip` | p21_print.py:304-319 | for every setting, the command for its minutes carries the setting's value as one character, which reads back as the same setting. On the wire that value is a single raw byte before CR LF |
| `Commands.BeepCommand` | p21_print.py:322-328 | the beep command is "BEEP " followed by one character |
| `Commands.BeepCommandRoundTrip` | p21_print.py:322-328 | that character reads back as the beep setting of the flag, which is ON exactly for true |
| `Commands.BeepCommandsDifferInLastOnly` | p21_print.py:322-328 | the commands for true and false have the same length and differ only in their last character |
| `Commands.BuildPrintCommand` | p21_print.py:347-357 | for every image, density and copies (none checked), the job is the fixed header up to "DENSITY ", the density numeral, the CR LF, "CLS" and bitmap header run, the image verbatim, "\r\nPRINT ", the copies numeral and CR LF |
| `Commands.PrintCommandStartsWithStatusQuery` | p21_print.py:347-348 | every print job begins with `ESC ! o CR LF` |
| `Commands.PrintCommandRoundTrip` | p21_print.py:347-357 | a reader that knows the image size recovers exactly the image, density and copies from every job |
| `Commands.PadBitmap` | p21_print.py:263-265 | a bitmap shorter than 3408 bytes is extended to 3408 bytes with 0xFF; a longer one is unchanged; the original bytes stay in front |
| `Commands.PadBitmapIdempotent` | p21_print.py:263-265 | padding twice is padding once, and the result fills the 12 × 284-byte area exactly when the input was no larger |
| `SerialTest.IntToBytesLow` | test.py:7-11 | the two bytes read big-endian as the value modulo 2^16, and agree with `to_bytes(2, "big")` on 16-bit values |
| `SerialTest.IntToBytesLowIsBigEndian` | test.py:7-11 | the high byte comes first, so the output differs from little-endian order whenever the two bytes differ |
| `SerialTest.GetCrc16` | test.py:14-26 | the loop-based checksum returns exactly the bytes of `crc16` for every input |
| `SerialTest.JudgeSerialNumberIsOk` | test.py:29-51 | raises for fewer than 3 bytes. Otherwise it answers true exactly when `validate_checksum` accepts the same bytes |
| `SerialTest.SampleFrameValidates` | test.py:54-60 | the sample frame passes the checksum check, so the judge answers true and the script reports it valid; the frame also decodes as a status record |
| `SerialTest.SampleFrameDecodes` | test.py:55 | the sample frame decodes as Busy, White, Gapped, data length 12, label length 40, maximum width 15, label width 14 and "unknown 7" 0x0D, and its rendering shows the label line, not the no-tag message |

## Left out

- Serial I/O in `send_command` (p21_print.py:331-344) is not modelled: opening the port, writing, `readline`, the timeout, and turning a `SerialException` into `None`. Every decoder takes the bytes the transport returned as a parameter. The `encode=False` path writes bytes unchanged, so there is nothing to model.
- `load_image` (p21_print.py:246-262): grayscale conversion, autocontrast, the floating-point contrast enhancement, rotation, thumbnailing and Floyd–Steinberg dithering are calls into an imaging library. Only the padding step is modelled.
- `main` and argparse (p21_print.py:360-443), and the globals `DEBUG` and `SERIAL_DEVICE`, are not modelled. The rendering takes `debug` as a parameter instead.
- `packaging.version.Version` (p21_print.py:34-35) is represented by the three bytes it is built from. Version parsing and comparison are not modelled.
- `DeviceConfig.__str__` (p21_print.py:39-46) is left out. Its text depends on `Version`'s rendering, and it has no branch.
- The "Invalid timeout setting" message printed by `get_timeout_command`, and the debug prints in `get_battery` and `send_command`, are left out. Only the return values are modelled.
- In test.py, the `crc` library's `Calculator(Crc16.IBM)` checksum of the reversed data, and the prints in `judge_serial_number_is_ok`, are left out. The value is only printed and never reaches the result.
- Commands.BeepCommand: takes a bool. In the source, a non-bool argument matches neither `case True` nor `case False` (both are identity patterns), and the function then fails with an unbound local variable.
- Responses.UnpackBattery: the level is stated through the BCD lemmas, not repeated in the contract. The charging flag keeps only its truth value, since `ChargingString`'s "Unknown" arm is dead for a bool.
