/** The script's global state and one turn of its polling loop: the history
    dictionary, the CPU temperature window, the mode and the time of the last
    accepted tap, updated in place as the loop runs. */
module AllInOne {
  import opened Channels
  import opened Window
  import opened Scaling
  import opened Paging
  import opened Acquisition

  /** The seed value of every history sample. */
  const HistorySeed: real := 1.0

  /** The history dictionary as the script creates it: each of the seven
      channels with `width` ones. */
  function SeedValues(width: nat): (m: map<Channel, seq<real>>)
    ensures forall c: Channel :: c in m && m[c] == Seed(width, HistorySeed)
  {
    AllChannelsListed();
    map c | c in AllChannels :: Seed(width, HistorySeed)
  }

  /** The three parts the display message is formatted from:
      `"{}: {:.1f} {}".format(prefix, value, unit)`. */
  datatype Caption = Caption(prefix: string, value: real, unit: string)

  class Monitor {
    /** `disp.width`: the length of every history, one sample per column. */
    const width: nat
    /** The first thermal read, repeated five times to seed `cpu_temps`. */
    ghost const cpuSeed: real

    /** `values`: channel to its rolling history, oldest sample first. */
    var values: map<Channel, seq<real>>
    /** `cpu_temps`: the last five CPU temperatures. */
    var cpuTemps: seq<real>
    /** `mode`: index of the displayed channel. */
    var mode: nat
    /** `last_page`: time of the last accepted tap. */
    var lastPage: real

    /** Every sample each channel has displayed, oldest first. */
    ghost var shown: map<Channel, seq<real>>
    /** Every CPU temperature read in the loop, oldest first. */
    ghost var cpuLog: seq<real>

    /** Each window is its seed with everything recorded since slid through it. */
    ghost predicate Valid()
      reads this
    {
      width > 0 && mode < ChannelCount &&
      (forall c: Channel :: c in values && c in shown &&
         values[c] == SlideAll(Seed(width, HistorySeed), shown[c])) &&
      cpuTemps == SlideAll(Seed(CpuWindow, cpuSeed), cpuLog)
    }

    /** The start-up state of the script. */
    constructor (width: nat, cpuTemp: real)
      requires width > 0
      ensures Valid()
      ensures this.width == width && cpuSeed == cpuTemp
      ensures values == SeedValues(width)
      ensures cpuTemps == Seed(CpuWindow, cpuTemp)
      ensures Pager(mode, lastPage) == Start
      ensures forall c: Channel :: shown[c] == []
      ensures cpuLog == []
    {
      this.width := width;
      cpuSeed := cpuTemp;
      values := SeedValues(width);
      cpuTemps := Seed(CpuWindow, cpuTemp);
      mode := 0;
      lastPage := 0.0;
      AllChannelsListed();
      shown := map c | c in AllChannels :: [];
      cpuLog := [];
    }

    /** Every history keeps the display width and the CPU window keeps five
        samples, however many loop steps have run. */
    lemma WindowLengths()
      requires Valid()
      ensures forall c: Channel :: |values[c]| == width
      ensures |cpuTemps| == CpuWindow
    {
      forall c: Channel
        ensures |values[c]| == width
      {
        SlideAllSuffix(Seed(width, HistorySeed), shown[c]);
      }
      SlideAllSuffix(Seed(CpuWindow, cpuSeed), cpuLog);
    }

    /** Once a channel has displayed at least `width` samples, its history
        holds exactly the latest `width` of them and no seed value. */
    lemma HistoryIsRecent(c: Channel)
      requires Valid() && |shown[c]| >= width
      ensures values[c] == shown[c][|shown[c]| - width..]
    {
      SlideAllForgetsSeed(Seed(width, HistorySeed), shown[c]);
    }

    /** Once five CPU temperatures have been read, the average no longer
        depends on the seed read. */
    lemma CpuWindowIsRecent()
      requires Valid() && |cpuLog| >= CpuWindow
      ensures cpuTemps == cpuLog[|cpuLog| - CpuWindow..]
    {
      SlideAllForgetsSeed(Seed(CpuWindow, cpuSeed), cpuLog);
    }

    /** `display_text`: slide `data` into the channel's history, scale the
        updated history, and assemble the caption from the channel name's
        prefix, the value and the unit. */
    method DisplayText(c: Channel, data: real, unit: string) returns (caption: Caption, scaled: seq<real>)
      requires Valid()
      modifies this
      ensures Valid()
      ensures values == old(values)[c := Slide(old(values)[c], data)]
      ensures |values[c]| == width && values[c][width - 1] == data
      ensures forall i :: 0 <= i < width - 1 ==> values[c][i] == old(values)[c][i + 1]
      ensures forall d: Channel :: d != c ==> values[d] == old(values)[d]
      ensures shown == old(shown)[c := old(shown)[c] + [data]]
      ensures caption == Caption(Label(Name(c)), data, unit)
      ensures scaled == Normalise(values[c])
      ensures cpuTemps == old(cpuTemps) && cpuLog == old(cpuLog)
      ensures mode == old(mode) && lastPage == old(lastPage)
    {
      WindowLengths();
      SlideAllSnoc(Seed(width, HistorySeed), shown[c], data);
      values := values[c := Slide(values[c], data)];
      shown := shown[c := shown[c] + [data]];
      caption := Caption(Label(Name(c)), data, unit);
      scaled := Normalise(values[c]);
    }

    /** The paging `if`: advance the mode on an accepted tap at time `now`. */
    method Page(now: real, proximity: int)
      requires Valid()
      modifies this
      ensures Valid()
      ensures Pager(mode, lastPage) == Advance(old(Pager(mode, lastPage)), now, proximity)
      ensures values == old(values) && shown == old(shown)
      ensures cpuTemps == old(cpuTemps) && cpuLog == old(cpuLog)
    {
      if proximity > Threshold && now - lastPage > Delay {
        mode := mode + 1;
        mode := mode % ChannelCount;
        lastPage := now;
      }
    }

    /** Slide a fresh thermal read into `cpu_temps` and average the window. */
    method SmoothCpu(cpuTemp: real) returns (avg: real)
      requires Valid()
      modifies this
      ensures Valid()
      ensures cpuTemps == Slide(old(cpuTemps), cpuTemp) && |cpuTemps| == CpuWindow
      ensures cpuLog == old(cpuLog) + [cpuTemp]
      ensures avg == Sum(cpuTemps) / CpuWindow as real
      ensures Min(cpuTemps) <= avg <= Max(cpuTemps)
      ensures values == old(values) && shown == old(shown)
      ensures mode == old(mode) && lastPage == old(lastPage)
    {
      WindowLengths();
      SlideAllSnoc(Seed(CpuWindow, cpuSeed), cpuLog, cpuTemp);
      cpuTemps := Slide(cpuTemps, cpuTemp);
      cpuLog := cpuLog + [cpuTemp];
      AverageBounds(cpuTemps);
      avg := Average(cpuTemps);
    }

    /** One turn of the polling loop, given the time and proximity it reads,
        the sensor results and the thermal read (used only on the temperature
        channel). It returns the channel shown, its value, the caption and
        the scaled history that colours the strip. */
    method Poll(now: real, proximity: int, s: Sensors, cpuTemp: real)
      returns (c: Channel, data: real, caption: Caption, scaled: seq<real>)
      requires Valid()
      modifies this
      ensures Valid()
      ensures Pager(mode, lastPage) == Advance(old(Pager(mode, lastPage)), now, proximity)
      ensures c == ChannelOf(mode)
      ensures c == Temperature ==> cpuTemps == Slide(old(cpuTemps), cpuTemp)
      ensures c != Temperature ==> cpuTemps == old(cpuTemps)
      ensures |cpuTemps| == CpuWindow
      ensures data == Reading(c, s, proximity, Average(cpuTemps))
      ensures values == old(values)[c := Slide(old(values)[c], data)]
      ensures shown == old(shown)[c := old(shown)[c] + [data]]
      ensures cpuLog == if c == Temperature then old(cpuLog) + [cpuTemp] else old(cpuLog)
      ensures caption == Caption(Label(Name(c)), data, Unit(c))
      ensures scaled == Normalise(values[c])
    {
      Page(now, proximity);
      c := ChannelOf(mode);
      var avg := 0.0;
      if c == Temperature {
        avg := SmoothCpu(cpuTemp);
      } else {
        WindowLengths();
      }
      data := Reading(c, s, proximity, avg);
      caption, scaled := DisplayText(c, data, Unit(c));
    }
  }

  /** Two loop turns on a one-column display: from start-up, with nothing
      near the sensor, both turns show temperature, the history holds only
      the second reading, and the CPU window has had both thermal reads slid
      into the seeded window. */
  method TwoTurns(s1: Sensors, s2: Sensors, cpu0: real, cpu1: real, cpu2: real)
    returns (history: seq<real>, window: seq<real>, latest: real)
    ensures history == [latest]
    ensures window == Slide(Slide(Seed(CpuWindow, cpu0), cpu1), cpu2)
    ensures latest == Compensate(s2.temperature, Average(window))
  {
    var m := new Monitor(1, cpu0);
    var c1, d1, k1, sc1 := m.Poll(0.1, 0, s1, cpu1);
    assert c1 == Temperature;
    var c2, d2, k2, sc2 := m.Poll(0.2, 0, s2, cpu2);
    assert c2 == Temperature;
    assert m.shown[Temperature] == [] + [d1] + [d2];
    m.HistoryIsRecent(Temperature);
    history, window, latest := m.values[Temperature], m.cpuTemps, d2;
  }
}
