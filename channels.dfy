/** The seven monitored quantities, the mode number that selects each of them,
    their dictionary keys, display units and the four-letter label prefix. */
module Channels {

  /** One monitored physical quantity; each owns one rolling history. */
  datatype Channel = Temperature | Pressure | Humidity | Light | Oxidised | Reduced | Nh3

  /** Number of entries in the history dictionary, i.e. `len(values)`. */
  const ChannelCount: nat := 7

  /** Position of a channel in the mode cycle (the `if mode == k` chain). */
  function Index(c: Channel): (k: nat)
    ensures k < ChannelCount
  {
    match c
    case Temperature => 0
    case Pressure => 1
    case Humidity => 2
    case Light => 3
    case Oxidised => 4
    case Reduced => 5
    case Nh3 => 6
  }

  /** The channel that mode `m` displays. */
  function ChannelOf(m: nat): (c: Channel)
    requires m < ChannelCount
    ensures Index(c) == m
  {
    if m == 0 then Temperature
    else if m == 1 then Pressure
    else if m == 2 then Humidity
    else if m == 3 then Light
    else if m == 4 then Oxidised
    else if m == 5 then Reduced
    else Nh3
  }

  /** The keys of the history dictionary. */
  const AllChannels: set<Channel> := {Temperature, Pressure, Humidity, Light, Oxidised, Reduced, Nh3}

  /** The dictionary has an entry for every channel. */
  lemma AllChannelsListed()
    ensures forall c: Channel :: c in AllChannels
  {
    forall c: Channel
      ensures c in AllChannels
    {
      match c
      case Temperature =>
      case Pressure =>
      case Humidity =>
      case Light =>
      case Oxidised =>
      case Reduced =>
      case Nh3 =>
    }
  }

  /** The modulus of the mode cycle is the number of dictionary keys. */
  lemma ChannelCountIsKeys()
    ensures |AllChannels| == ChannelCount
  {
  }

  /** Every channel is displayed by exactly one mode, so the mode chain has no
      gap and no duplicate branch. */
  lemma ChannelOfIndex(c: Channel)
    ensures ChannelOf(Index(c)) == c
  {
  }

  /** The dictionary key under which a channel's history is stored; every
      key is a non-empty lower-case word. */
  function Name(c: Channel): (n: string)
    ensures |n| > 0
    ensures forall i :: 0 <= i < |n| ==> Lower(n[i]) == n[i]
  {
    match c
    case Temperature => "temperature"
    case Pressure => "pressure"
    case Humidity => "humidity"
    case Light => "light"
    case Oxidised => "oxidised"
    case Reduced => "reduced"
    case Nh3 => "nh3"
  }

  /** Distinct channels have distinct keys, so the dictionary holds seven
      separate histories. */
  lemma NameInjective(c: Channel, d: Channel)
    ensures Name(c) == Name(d) <==> c == d
  {
  }

  /** The unit string shown after the value; the three gas channels, and
      only they, are shown in kilo-ohms. */
  function Unit(c: Channel): (u: string)
    ensures |u| > 0
    ensures u == "kO" <==> c == Oxidised || c == Reduced || c == Nh3
  {
    match c
    case Temperature => "C"
    case Pressure => "hPa"
    case Humidity => "%"
    case Light => "Lux"
    case Oxidised => "kO"
    case Reduced => "kO"
    case Nh3 => "kO"
  }

  /** Upper-casing of one character, on ASCII letters. */
  function Upper(ch: char): (u: char)
  {
    if 'a' <= ch <= 'z' then (ch as int - 32) as char else ch
  }

  /** Lower-casing of one character, on ASCII letters. */
  function Lower(ch: char): (l: char)
  {
    if 'A' <= ch <= 'Z' then (ch as int + 32) as char else ch
  }

  /** Python's `str.capitalize`: first character upper case, the rest lower case. */
  function Capitalize(s: string): (r: string)
    ensures |r| == |s|
    ensures |s| > 0 ==> r[0] == Upper(s[0])
    ensures forall i :: 1 <= i < |s| ==> r[i] == Lower(s[i])
  {
    if s == [] then [] else [Upper(s[0])] + seq(|s| - 1, i requires 0 <= i < |s| - 1 => Lower(s[i + 1]))
  }

  /** `name[:4].capitalize()`: the label printed in front of the value. */
  function Label(name: string): (r: string)
    ensures |r| == if |name| < 4 then |name| else 4
    ensures |r| > 0 ==> r[0] == Upper(name[0])
    ensures forall i :: 1 <= i < |r| ==> r[i] == Lower(name[i])
  {
    Capitalize(if |name| < 4 then name else name[..4])
  }

  /** Taking the label of a label changes nothing. */
  lemma LabelIdempotent(name: string)
    ensures Label(Label(name)) == Label(name)
  {
  }

  /** Two names that agree up to ASCII case get the same label. */
  lemma LabelIgnoresCase(a: string, b: string)
    requires |a| == |b|
    requires forall i :: 0 <= i < |a| ==> Lower(a[i]) == Lower(b[i])
    ensures Label(a) == Label(b)
  {
  }

  /** The label the temperature channel is shown with. */
  lemma TemperatureLabel()
    ensures Label(Name(Temperature)) == "Temp"
  {
    var r := Label(Name(Temperature));
    assert r[0] == 'T' && r[1] == 'e' && r[2] == 'm' && r[3] == 'p';
  }

  /** The nh3 name is shorter than four characters and is shown whole. */
  lemma Nh3Label()
    ensures Label(Name(Nh3)) == "Nh3"
  {
    var r := Label(Name(Nh3));
    assert r[0] == 'N' && r[1] == 'h' && r[2] == '3';
  }
}
