# i2c-lcd in Dafny

A model of the Raspberry Pi demo program `main.cpp` and proofs about it. The
program bit-bangs I2C on two GPIO pins to reach an HD44780 character display
behind a PCF8574 port expander at address 0x27, and shows a counter that
counts up by one on every pass.

The model follows the program's own layers:

- `Bus` (`bus.dfy`) describes the two open-drain lines.
  - A line is either released (pulled high) or driven low.
  - Each `LineOp` is one pin-direction switch.
  - `Run` is the list of bus snapshots after each switch.
  - The observers read off what a receiver sees: `Samples` gives SDA at each rising edge of SCL, `Starts` and `Stops` count START and STOP conditions, and `SdaStableWhileSclHigh` is the data-validity rule.
- `Bits` (`bits.dfy`) covers the bit arithmetic of `i2c_write`: bit 7 of a shifted `int`, the byte sent most significant bit first, and decoding that byte back. `Arith` (`arith.dfy`) holds the division facts these bits and the decimal counter share.
- `Waveform` (`waveform.dfy`) gives the switch sequence of each bus routine and proves what each puts on the wire.
- `SoftI2C` (`i2c.dfy`) is the `I2C` class.
  - Its fields are the direction of each pin and the device address.
  - A ghost `trace` records every bus snapshot since construction.
  - Every bus routine (`Start`, `Stop`, `Repeat`, `WriteByte`, `Write`) is proved against the `Waveform` sequences: its new trace is the old one plus the run of the routine's switches. The line switches and `ReadData` are stated directly through the one-switch `Step` and the wired-AND of SDA.
- `Lcd` (`lcd.dfy`) covers `lcd_byte`, `lcd_print`, `lcd_clear` and `setup`.
  - These are stated as the sequence of `write` bytes they produce, and as what the display decodes from those bytes.
  - The display side is modelled as the HD44780 4-bit interface. At every falling edge of the enable strobe (bit 2 of the expander port) that ends a write cycle (read/write, bit 1, low), it latches the port's bits 4 to 7 and the register select (bit 0). Consecutive latched nibbles pair into bytes, high nibble first.
- `Counter` (`counter.dfy`) covers one pass of `loop`: the five-character buffer and what it puts on the bus.

Behaviour of the code worth knowing:

- Each display byte is six `write` calls: the high nibble with the enable strobe off, on and off, then the low nibble the same way. The model follows the code.
- `write` ends with `i2c_stop`. But `i2c_write` has already released SDA for the acknowledge clock, so when the stop releases SCL and then SDA, SDA never rises while SCL is high. No STOP condition appears on the bus. `Waveform.TransactionWaveform` proves `Stops == 0` for every transaction; the next START begins the next transaction. The model keeps this behaviour.

## Model

| member | source | states |
|---|---|---|
| SoftI2C.I2C.constructor | main.cpp:25-35 | construction leaves both lines released (bus idle), records the idle bus as the first snapshot, and keeps the address |
| SoftI2C.I2C.ClockLow | main.cpp:37-41 | switching SCL to output drives SCL low, leaves SDA as it was, and adds one snapshot |
| SoftI2C.I2C.ClockRelease | main.cpp:43-47 | switching SCL to input releases SCL, leaves SDA as it was, and adds one snapshot |
| SoftI2C.I2C.DataLow | main.cpp:49-53 | switching SDA to output drives SDA low, leaves SCL as it was, and adds one snapshot |
| SoftI2C.I2C.DataRelease | main.cpp:55-59 | switching SDA to input releases SDA, leaves SCL as it was, and adds one snapshot |
| SoftI2C.I2C.ReadData | main.cpp:61-65 | the level read on SDA is high exactly when neither the master nor the device pulls it low (wired-AND) |
| SoftI2C.I2C.Start | main.cpp:68-74 | the trace grows by exactly the start sequence: SDA low, then SCL low |
| SoftI2C.I2C.Stop | main.cpp:77-83 | the trace grows by the stop sequence and the bus ends idle |
| SoftI2C.I2C.Repeat | main.cpp:86-94 | the trace grows by the repeated-start sequence and both lines end low |
| SoftI2C.I2C.WriteByte | main.cpp:97-129 | the loop puts the low byte of `c` on SDA MSB first, one clock pulse per bit, then releases SDA for the acknowledge clock; it ends with SCL low and SDA released, and the result is the NACK level the device leaves |
| SoftI2C.I2C.Write | main.cpp:141-148 | the trace grows by exactly one transaction (start, address byte, data byte, stop) and the bus ends idle |
| Waveform.StartOps | main.cpp:68-74 | the start's switches, SDA low then SCL low; from any bus state they leave both lines low |
| Waveform.StopOps | main.cpp:77-83 | the stop's switches, SCL released then SDA released; from any bus state they leave the bus idle |
| Waveform.RepeatOps | main.cpp:86-94 | the repeated start's switches, SCL released, SDA low, SCL low; from any bus state they leave both lines low |
| Waveform.ByteOps | main.cpp:97-129 | the switches of `i2c_write`: three per data bit (SDA set, SCL released, SCL low), then three for the acknowledge clock, 27 in all; their effect on the bus is `Waveform.ByteWaveform` |
| Waveform.TransactionOps | main.cpp:141-148 | the switches of `write`: start, the address byte, the data byte, stop, 58 in all; their effect on the bus is `Waveform.TransactionWaveform` |
| Waveform.StartFromIdle | main.cpp:68-74 | from the idle bus, the start's first switch is a START condition; no bit is sampled and no STOP appears; both lines end low |
| Waveform.StopWaveform | main.cpp:77-83 | a stop always leaves the bus idle; entered as a byte write leaves the bus, it holds no STOP condition and no START |
| Waveform.RepeatAfterByte | main.cpp:86-94 | after a byte write, a repeated start makes exactly one START condition and no STOP |
| Waveform.BitsWaveform | main.cpp:103-115 | with SCL low on entry, the data bits are sampled in order at the rising edges of SCL, SDA changes only while SCL is low, and SCL ends low |
| Waveform.ByteWaveform | main.cpp:97-129 | a byte write delivers the byte's eight bits and then a released SDA on the ninth clock; it holds no START or STOP condition and ends with SCL low and SDA released |
| Waveform.WireBit | main.cpp:103-109 | testing `c & 0x80` after `i` left shifts reads the `i`-th bit sent, that is bit `7 - i` of `c` |
| Waveform.ByteBitOrder | main.cpp:97-129 | the k-th of the nine sampled levels is bit `7 - k` of `c` for k < 8, and the ninth is high |
| Waveform.TransactionWaveform | main.cpp:141-148 | a `write` from the idle bus makes exactly one START condition, at its first switch; it delivers the address byte with the write bit, the acknowledge clock, the data byte, the acknowledge clock and the stop's level; it makes no STOP condition and ends idle |
| Waveform.WritesWaveform | main.cpp:141-148 | consecutive `write`s from the idle bus give one START per write, the transactions' bits in order, no STOP, and an idle bus at the end |
| Waveform.WritesAppend | main.cpp:155-172 | performing the writes of `x` and then those of `y` gives the same bus trace as performing the writes of `x + y` |
| Bits.ShlBit | main.cpp:111 | shifting left by `i` moves bit `k` to bit `k + i` |
| Bits.LowBitsValue | main.cpp:103-109 | decoding the bits sent gives `c` modulo 2^n |
| Bits.ValueLowBits | main.cpp:103-109 | encoding a decoded bit string gives the bit string back |
| Bits.ByteBitsValue | main.cpp:97-129 | the receiver decodes the low byte of the `int` argument; arguments with the same low byte put the same bits on the wire |
| Bits.AddressBits | main.cpp:144 | `address << 1` sends the seven address bits followed by a 0 (the write direction) |
| Lcd.NibbleWrites | main.cpp:155-172 | the six port bytes hi, hi\|E, hi, lo, lo\|E, lo, with hi and lo computed as at main.cpp:157-158; the contract states the six writes, and their framing is `Lcd.NibbleFraming` |
| Lcd.NibbleFraming | main.cpp:155-172 | `lcd_byte` makes six writes; the enable strobe is set only in the 2nd and 5th, and the writes around it are equal; the backlight is on in every write; for a register-select mode, every write selects that register in write direction; the display receives `bits` from the high and low nibble |
| Lcd.GroupLatches | main.cpp:155-172 | the six writes of one `lcd_byte`, entered with no write cycle under way (strobe low, or read/write high), end exactly two write cycles: the display latches the high nibble and then the low nibble of `bits`, with the register select of `mode`; the strobe ends low |
| Lcd.GroupReceived | main.cpp:155-172 | the six writes of one `lcd_byte`, entered with no write cycle under way, deliver exactly the byte `bits` to the display, tagged as character data exactly when `mode` is `LCD_CHR`; the strobe ends low |
| Lcd.LcdByte | main.cpp:155-172 | the bus trace grows by the six nibble-framed writes, in order, and the bus ends idle |
| Lcd.TextWrites | main.cpp:174-180 | one `lcd_byte(ch, LCD_CHR)` per character up to the first NUL: six writes per byte the text stands for |
| Lcd.LcdPrint | main.cpp:174-180 | the bus trace grows by one character's writes per character up to the first NUL (or the end), and the bus ends idle |
| Lcd.TextRoundTrip | main.cpp:174-180 | the display decodes exactly the string's bytes up to its NUL, each as character data |
| Lcd.ClearWrites | main.cpp:182-186 | the six writes of the clear command; from a port with every bit low, the display decodes them as exactly the command 0x01 |
| Lcd.LcdClear | main.cpp:182-186 | the bus trace grows by the writes of the clear command, and the bus ends idle |
| Lcd.SetupWrites | main.cpp:188-201 | the writes of `setup`'s six commands, six per command, 36 in all; what the display decodes from them is `Lcd.SetupReceived` |
| Lcd.Setup | main.cpp:188-201 | constructs a fresh engine for address 0x27; from its idle bus, the trace holds exactly the initialisation writes, and the bus ends idle |
| Lcd.CommandsReceived | main.cpp:188-201 | any five commands followed by the clear command, sent with no write cycle under way, reach the display in order, all as commands |
| Lcd.SetupReceived | main.cpp:188-201 | from a port with every bit low, the display receives the commands 0x33, 0x32, 0x06, 0x0C, 0x28 and 0x01, in order, all as commands |
| Lcd.SetupReceivedAtPowerOn | main.cpp:188-201 | from the PCF8574's power-on port value 0xFF (strobe high, read/write high), the strobe's fall at the first write ends a read cycle and latches nothing; the display receives the same six commands, in order, all as commands |
| Counter.CounterText | main.cpp:207-212 | the buffer is four decimal digit characters followed by a NUL |
| Counter.CounterTextSpells | main.cpp:208-211 | the four digits spell the counter modulo 10000 |
| Counter.CounterTextBytes | main.cpp:212-214 | only the four digits are printed: the NUL ends the text |
| Counter.LoopReceived | main.cpp:213-214 | one pass delivers the clear command, then the four digits as character data |
| Counter.Loop | main.cpp:204-217 | the trace grows by the clear writes and then the digit writes; the counter moves on by one |

## Left out

- The bcm2835 library calls (`bcm2835_init`, `bcm2835_close`, `bcm2835_gpio_fsel`, `bcm2835_gpio_clr`, `bcm2835_gpio_lev`) are not modelled as calls. Each pin-mode switch becomes a snapshot of the two lines, and a pin read becomes the parameter `deviceSda`, the level the device leaves on SDA.
- SoftI2C.I2C.Write: one `deviceSda` value serves both acknowledge reads of a call. `Lcd.LcdByte`, `Lcd.LcdPrint`, `Lcd.LcdClear`, `Lcd.Setup` and `Counter.Loop` likewise pass one `deviceSda` to every `write` they make. The acknowledge results are discarded, so the trace does not depend on them.
- Timing is not modelled: `delay` (empty in the source), `usleep` and `sleep`. Electrical behaviour, such as rise times and clock stretching, is not modelled either.
- `main`'s endless loop and the global `wire` pointer are not modelled. `Counter.Loop` takes the engine and the counter value as parameters, and returns the next counter value instead of updating a `static int`.
- Counter.Loop: the counter is an unbounded `nat`, so the overflow of the C `int` after 2^31 - 1 passes (undefined behaviour in C) is not modelled.
- SoftI2C.I2C.WriteByte: `c` is an unbounded integer and `c <<= 1` is an unbounded shift. The bits tested (bit 7 of the shifted value) are the same as with a 32-bit `int`, so the waveform is unaffected.
- Lcd.LcdByte: requires the bus to be idle on entry, which holds after construction and after every `write`.
- Lcd.LcdPrint: the C string is modelled as a `seq<char>` that may end without a NUL; `lcd_print` stops at the NUL, and the model also stops at the end of the sequence. Each `char` stands for one C `char` (0 to 255); `Lcd.Narrow` keeps the value modulo 256, as the conversion to `uint8_t` at main.cpp:177 does, and Dafny characters above 255 have no C counterpart.
- Lcd.Decode: starts from a port with every bit low; `Lcd.SetupReceivedAtPowerOn` covers the power-on port value 0xFF. A read cycle (the strobe falling with read/write high, as at `setup`'s first write after power-on) is modelled as latching nothing; what the display does in it (a data read advances its address counter, which `setup`'s clear command resets) is not modelled. The HD44780's busy flag and its power-on switch to 4-bit mode (the 0x33, 0x32 sequence) are not modelled either; nibbles are paired from the first latched one.
