# Enviro multisensor strip chart: a verified model

`AIO4.py` polls an Enviro board in a loop. Each time round it reads one
channel: temperature, pressure, humidity, light, oxidised, reduced or nh3. It
slides the reading into that channel's rolling history and scales the history
into `(0, 1]` with a min-max scaling. It then draws the scaled history as a
colour strip on the LCD. A proximity "tap" pages to the next channel.

This project models the logic of that loop in Dafny and proves properties of
it. All arithmetic is on mathematical reals.

- `Channels` (`channels.dfy`): the seven channels and the mode number that
  selects each one. Also the dictionary keys, the units and the label
  `name[:4].capitalize()`.
- `Window` (`window.dfy`): the `w[1:] + [x]` sliding window, shared by the
  histories and by the five-sample CPU temperature window. Also run-of-slides
  lemmas, `sum`, the average, `min` and `max`.
- `Scaling` (`scaling.dfy`): the `scaled` list
  `(v - vmin + 1) / (vmax - vmin + 1)`. The "+1" on both sides keeps a flat
  history from dividing by zero.
- `Paging` (`paging.dfy`): the tap/debounce transition of `mode` and
  `last_page`. The clock is an input.
- `Acquisition` (`acquisition.dfy`): the per-channel reading rules. These are
  the temperature compensation against the smoothed CPU temperature, the light
  sentinel, and the ohm to kilo-ohm division of the gas channels.
- `AllInOne` (`allinone.dfy`): class `Monitor`. It holds the script's globals
  (`values`, `cpu_temps`, `mode`, `last_page`) and has methods that update
  them in place: `DisplayText`, `Page`, `SmoothCpu`, and `Poll`, which is one
  turn of the loop. Two ghost logs record every sample each channel has shown
  and every CPU temperature read. The class invariant ties each window to its
  seed with that log slid through it. This is how the FIFO lemmas about
  `SlideAll` carry over to the object's state.

The display width `disp.width` is a constructor parameter and must be
positive. The sensor results, the proximity reading and the current time are
inputs to `Poll`.

The branch for mode 6 (nh3) at `AIO4.py:166` is indented one level too deep.
As written, Python would reject the file. The model uses the evident intent:
an `elif mode == 6` sibling of the other branches that shows `nh3 / 1000` in
kO. The drawing loop (left out) computes the hue as `i / 239.0`, which is a
width of 240 written in as a constant, not `i / (width - 1)`.

## Model

| member | source | states |
|---|---|---|
| Channels.ChannelOf | AIO4.py:121-171 | mode `m < 7` selects the channel whose cycle index is `m` |
| Channels.ChannelOfIndex | AIO4.py:121-171 | every channel is selected by its own mode, so the `if mode == k` chain has no gap and no duplicate |
| Channels.AllChannelsListed | AIO4.py:58-66 | the history dictionary has an entry for every channel |
| Channels.ChannelCountIsKeys | AIO4.py:58-66 | the 7 of `% len(values)` is the number of dictionary keys |
| Channels.NameInjective | AIO4.py:58-66 | two channels have the same dictionary key exactly when they are the same channel |
| Channels.Name | AIO4.py:58-66 | every dictionary key is a non-empty, all-lower-case word |
| Channels.Unit | AIO4.py:123-171 | each channel's unit is non-empty, and it is `kO` exactly for the three gas channels |
| Channels.Capitalize | AIO4.py:94 | `capitalize` keeps the length, upper-cases the first character and lower-cases every other one |
| Channels.Label | AIO4.py:94 | the label has `min(4, len(name))` characters: the first is the name's first character upper-cased, the rest are the name's characters lower-cased |
| Channels.LabelIdempotent | AIO4.py:94 | taking the label of a label gives the same label |
| Channels.LabelIgnoresCase | AIO4.py:94 | names that agree up to ASCII case get the same label |
| Channels.TemperatureLabel | AIO4.py:94 | the temperature channel is labelled `Temp` |
| Channels.Nh3Label | AIO4.py:94 | the three-letter key `nh3` is labelled whole, as `Nh3` |
| Window.Seed | AIO4.py:59-65 | `[v] * n` has length `n` and every element equals `v` |
| Window.Slide | AIO4.py:88 | an empty window becomes `[x]`; on a non-empty window, the length is unchanged, the last element is the new sample, and element `i` is the old element `i + 1` (the oldest is evicted) |
| Window.SlideAllSuffix | AIO4.py:88 | sliding in samples `xs` keeps the length and gives the last `len(w)` elements of `w + xs` |
| Window.SlideAllSnoc | AIO4.py:88 | sliding in one more sample after a run of slides is the same as the longer run |
| Window.SlideAllForgetsSeed | AIO4.py:88 | after at least `len(w)` slides no seed sample is left: the window is exactly the latest `len(w)` samples, oldest first |
| Window.Min | AIO4.py:90 | `min` is an element of the window and no element is smaller |
| Window.Max | AIO4.py:91 | `max` is an element of the window and no element is larger |
| Window.Average | AIO4.py:126 | the average times the window length is the window's sum |
| Window.SumBounds | AIO4.py:126 | if every sample lies in `[lo, hi]`, the sum lies in `[n * lo, n * hi]` |
| Window.SumSeed | AIO4.py:126 | the sum of `n` copies of `v` is `n * v` |
| Window.AverageWithin | AIO4.py:126 | if every sample lies in `[lo, hi]`, so does `sum / len` |
| Window.AverageBounds | AIO4.py:126 | the average lies between the window's `min` and `max` |
| Window.AverageSeed | AIO4.py:79 | the seeded CPU window, five copies of the first read, averages to that read |
| Scaling.Scale | AIO4.py:92 | a sample in `[vmin, vmax]` scales into `(0, 1]`, and to exactly 1 precisely when it equals `vmax` |
| Scaling.Normalise | AIO4.py:90-92 | `scaled` has one value per sample and every value lies in `(0, 1]` |
| Scaling.NormaliseTop | AIO4.py:90-92 | `scaled[i] == 1` if and only if `v[i]` is the window's maximum |
| Scaling.NormaliseFlat | AIO4.py:90-92 | a window of equal samples scales to all ones (the "+1" guard) |
| Scaling.NormaliseOrder | AIO4.py:90-92 | `v[i] <= v[j]` if and only if `scaled[i] <= scaled[j]` |
| Scaling.NormaliseBottomLeast | AIO4.py:90-92 | a sample equal to the window's minimum gets the least scaled value |
| Scaling.MinShift | AIO4.py:90 | adding `c` to every sample adds `c` to the minimum |
| Scaling.MaxShift | AIO4.py:91 | adding `c` to every sample adds `c` to the maximum |
| Scaling.NormaliseShift | AIO4.py:90-92 | adding the same offset to every sample leaves `scaled` unchanged |
| Scaling.NormaliseExample | AIO4.py:88-92 | a four-sample window of ones updated with 5 becomes `[1, 1, 1, 5]`, which scales to `[0.2, 0.2, 0.2, 1.0]` |
| Paging.Advance | AIO4.py:115-118 | a mode in `[0, 7)` stays in `[0, 7)`; `last_page` either stays or becomes `now` |
| Paging.AdvanceChanges | AIO4.py:115-118 | with the mode in range, the mode changes if and only if `proximity > 1500` and `now - last_page > 0.5`; then it becomes `(mode + 1) % 7` and `last_page` becomes `now`; otherwise both stay unchanged |
| Paging.AdvanceNextChannel | AIO4.py:115-117 | an accepted tap shows the next channel of the cycle, wrapping from nh3 to temperature |
| Paging.Debounce | AIO4.py:115-118 | after an accepted tap at `t1`, a reading at most 0.5 s later changes nothing, whatever its proximity |
| Paging.RunMode | AIO4.py:110-118 | over any run of loop steps, the mode stays in `[0, 7)` and equals the start mode plus the number of accepted taps, modulo 7 |
| Paging.FullCycle | AIO4.py:116-117 | seven accepted taps return to the starting channel |
| Acquisition.CompensateWith | AIO4.py:128 | for any positive factor, the compensated temperature is below the raw reading when the CPU average is warmer, above it when cooler, equal when they match |
| Acquisition.FactorTunesWarm | AIO4.py:75-77 | with the CPU warmer than the sensor, a larger factor gives a higher compensated temperature and a smaller one a lower temperature |
| Acquisition.FactorTunesCool | AIO4.py:75-77 | with the CPU cooler than the sensor, a larger factor gives a lower compensated temperature: the tuning comment holds only for a warmer CPU |
| Acquisition.Compensate | AIO4.py:128 | the compensated temperature is below the raw reading when the CPU average is warmer, above it when the CPU average is cooler, and equal to it when they match |
| Acquisition.CompensateRoundTrip | AIO4.py:128 | for a fixed CPU average, compensation and its inverse undo each other in both orders |
| Acquisition.CompensateExample | AIO4.py:128 | raw 22.0 against a CPU average of 32.25 gives 157/9 = 17.444... |
| Acquisition.LightReading | AIO4.py:146-149 | the light value is the lux reading when proximity is below 10, and the sentinel 1 otherwise |
| Acquisition.TapHidesLight | AIO4.py:146-149 | a proximity high enough to page the display always gives the light sentinel |
| Acquisition.KiloOhms | AIO4.py:156 | the kilo-ohm value times 1000 is the raw resistance |
| Acquisition.Reading | AIO4.py:121-171 | each channel's displayed value: compensated temperature, pressure and humidity as read, the light rule, and each gas resistance in kilo-ohms (nh3 as the intended sibling branch) |
| AllInOne.SeedValues | AIO4.py:58-66 | every channel's history starts as `width` ones |
| AllInOne.Monitor.constructor | AIO4.py:58-83 | histories seeded with ones, the CPU window seeded with five copies of the first read, `mode = 0`, `last_page = 0`, nothing shown or read yet |
| AllInOne.Monitor.WindowLengths | AIO4.py:59-65 | in every reachable state, each history has `width` samples and the CPU window has five |
| AllInOne.Monitor.HistoryIsRecent | AIO4.py:88 | once a channel has shown `width` samples, its history is exactly the latest `width` of them |
| AllInOne.Monitor.CpuWindowIsRecent | AIO4.py:125 | once five CPU temperatures have been read, the window is exactly the latest five |
| AllInOne.Monitor.DisplayText | AIO4.py:86-95 | only the given channel's history changes: it drops its oldest sample and gains `data`, keeping length `width`; the other six are unchanged; returns the caption (label prefix, value, unit) and the scaled updated history |
| AllInOne.Monitor.Page | AIO4.py:115-118 | `mode` and `last_page` become `Advance` of their old values; the histories and the CPU window are unchanged |
| AllInOne.Monitor.SmoothCpu | AIO4.py:124-126 | slides the read into the five-sample window and returns `sum / 5`, which lies between the window's min and max |
| AllInOne.Monitor.Poll | AIO4.py:110-173 | one loop turn: page, pick the channel of the new mode, update the CPU window (and its record of reads) only on the temperature channel, compute that channel's reading, slide it into that channel's history alone (and its record of shown samples), and caption it with the channel's label and unit |
| AllInOne.TwoTurns | AIO4.py:110-173 | two untapped turns from start-up on a one-column display: the temperature history is exactly the second reading, which is compensated against the CPU window with both reads slid in |

## Left out

- Sensor drivers (BME280, LTR559, MICS6814) and the `/sys` thermal-zone read, including its `int(temp) / 1000.0` conversion. These are hardware I/O. `Poll` takes their results as inputs (`Sensors`, `proximity`, `cpuTemp`).
- The ST7735 set-up, PIL drawing, font loading and `disp.display`. These are display side effects.
- The HSV to RGB colour of each column and its `int(c * 255)` truncation. This is a floating-point library call. The model stops at the `scaled` list that feeds it.
- The `{:.1f}` rendering of the value, the message layout and the log line. Float-to-text formatting is not modelled. `DisplayText` returns the three parts the message is formatted from (label prefix, value, unit) as a `Caption`.
- `time.time()`, `time.sleep(0.1)`, the endless `while True` and the `KeyboardInterrupt` exit. `Poll` is one turn of the loop with `now` as an input. The source reads the clock twice, for the comparison and for the new `last_page`; the model uses one `now` for both.
- Floating point: all values are exact reals, so rounding in the scaling, the average and the compensation is not modelled. Python's `1` integer seeds and light sentinel are the real `1.0`.
- Channels.Capitalize, Channels.Label: `capitalize` is modelled on ASCII letters only. Other characters pass through unchanged; Unicode title case, and characters such as `ß` whose upper case is longer than one character, are not modelled, so the length-preserving contracts hold only on the ASCII keys the script passes.
- Acquisition.FactorTunesWarm, Acquisition.FactorTunesCool: the comment at `AIO4.py:75-76` ("decrease to adjust down, increase to adjust up") is proved only while the CPU average is warmer than the raw reading; when it is cooler the factor acts the other way, and when they are equal it has no effect.
