/** Channels of a codeplug: the fields common to analog and digital channels,
    the fields each variant adds, and the channel list with its searches.

    Frequencies are whole numbers of Hz, so the searches compare them for
    exact equality. */
module Channels {
  import opened ConfigObject
  import opened ObjectList

  /** Transmit power settings, from highest to lowest. */
  datatype Power = Max | High | Mid | Low | Min

  /** The two concrete channel classes; `is<AnalogChannel>()` and
      `is<DigitalChannel>()` test this tag. */
  datatype ChannelKind = AnalogKind | DigitalKind

  /** When an analog channel may transmit. */
  datatype AnalogAdmit = Always | Free | Tone

  /** When a digital channel may transmit. */
  datatype DigitalAdmit = Always | Free | ColorCode

  datatype Bandwidth = Narrow | Wide

  datatype TimeSlot = TS1 | TS2

  /** A CTCSS or DCS code; `SignalingNone` switches the tone off. The tone
      tables themselves are not modelled. */
  datatype ToneCode = SignalingNone | Code(code: nat)

  /** The kinds of object each reference of a channel may point to. */
  const ScanListTargets: set<ObjectKind> := {ScanListObj}
  const APRSTargets: set<ObjectKind> := {APRSSystemObj}
  const GroupListTargets: set<ObjectKind> := {GroupListObj}
  const ContactTargets: set<ObjectKind> := {DigitalContactObj}
  const PositioningTargets: set<ObjectKind> := {GPSSystemObj, APRSSystemObj}
  const RoamingTargets: set<ObjectKind> := {RoamingZoneObj}
  const RadioIdTargets: set<ObjectKind> := {RadioIDObj}

  /** The fields an analog or a digital channel adds to the common ones. */
  datatype ChannelExt =
    | AnalogExt(analogAdmit: AnalogAdmit, squelch: TriState<Level>,
                rxTone: ToneCode, txTone: ToneCode, bandwidth: Bandwidth,
                aprs: Option<ObjectId>)
    | DigitalExt(digitalAdmit: DigitalAdmit, colorCode: uint32, timeSlot: TimeSlot,
                 groupList: Option<ObjectId>, txContact: Option<ObjectId>,
                 posSystem: Option<ObjectId>, roaming: Option<ObjectId>,
                 radioId: Option<ObjectId>)
  {
    /** The variant fields belong to a channel of kind `k`, and every
        reference among them points to an object of an allowed kind. */
    predicate Fits(k: ChannelKind)
    {
      match this
      case AnalogExt(_, _, _, _, _, aprs) =>
        k == AnalogKind && Admits(APRSTargets, aprs)
      case DigitalExt(_, _, _, groupList, txContact, posSystem, roaming, radioId) =>
        && k == DigitalKind
        && Admits(GroupListTargets, groupList)
        && Admits(ContactTargets, txContact)
        && Admits(PositioningTargets, posSystem)
        && Admits(RoamingTargets, roaming)
        && Admits(RadioIdTargets, radioId)
    }
  }

  /** A channel of the codeplug. The base class and its two subclasses of
      the C++ source are one class here: `kind` fixes the subclass at
      construction and `ext` holds the subclass's own fields. */
  class Channel {
    const kind: ChannelKind
    var name: string
    var rxFrequency: nat
    var txFrequency: nat
    /** `true` while the channel follows the global power setting. */
    var defaultPower: bool
    var power: Power
    var timeout: TriState<uint32>
    var rxOnly: bool
    var vox: TriState<Level>
    var scanList: Option<ObjectId>
    var ext: ChannelExt

    ghost predicate Valid()
      reads this
    {
      ext.Fits(kind) && Admits(ScanListTargets, scanList)
    }

    /** `is<AnalogChannel>()`: every channel that is not digital is analog. */
    function IsAnalog(): (r: bool)
      ensures r <==> kind != DigitalKind
    {
      kind == AnalogKind
    }

    /** `is<DigitalChannel>()`: every channel that is not analog is digital. */
    function IsDigital(): (r: bool)
      ensures r <==> kind != AnalogKind
    {
      kind == DigitalKind
    }

    /** `as<AnalogChannel>()`: the channel itself when it is analog, else null. */
    function AsAnalog(): (c: Channel?)
      ensures c != null <==> IsAnalog()
      ensures c != null ==> c == this && !c.IsDigital()
    {
      if IsAnalog() then this else null
    }

    /** `as<DigitalChannel>()`: the channel itself when it is digital, else null. */
    function AsDigital(): (c: Channel?)
      ensures c != null <==> IsDigital()
      ensures c != null ==> c == this && !c.IsAnalog()
    {
      if IsDigital() then this else null
    }

    /** A new, empty analog channel. */
    constructor Analog()
      ensures Valid() && IsAnalog()
      ensures name == "" && rxFrequency == 0 && txFrequency == 0
      ensures defaultPower && timeout == Default && vox == Default
      ensures !rxOnly && scanList == None
      ensures ext.AnalogExt? && ext.squelch == Default && ext.aprs == None
      ensures ext.rxTone == SignalingNone && ext.txTone == SignalingNone
    {
      kind := AnalogKind;
      name, rxFrequency, txFrequency := "", 0, 0;
      defaultPower, power := true, High;
      timeout, rxOnly, vox, scanList := Default, false, Default, None;
      ext := AnalogExt(AnalogAdmit.Always, Default, SignalingNone, SignalingNone, Narrow, None);
    }

    /** A new, empty digital channel; it uses the default radio ID. */
    constructor Digital()
      ensures Valid() && IsDigital()
      ensures name == "" && rxFrequency == 0 && txFrequency == 0
      ensures defaultPower && timeout == Default && vox == Default
      ensures !rxOnly && scanList == None
      ensures ext.DigitalExt? && ext.groupList == None && ext.txContact == None
      ensures ext.posSystem == None && ext.roaming == None && ext.radioId == None
    {
      kind := DigitalKind;
      name, rxFrequency, txFrequency := "", 0, 0;
      defaultPower, power := true, High;
      timeout, rxOnly, vox, scanList := Default, false, Default, None;
      ext := DigitalExt(DigitalAdmit.Always, 1, TS1, None, None, None, None, None);
    }

    /** The copy constructor: a new channel of the same kind with the same
        field values; references point to the same objects (the referenced
        objects are shared, not copied). */
    constructor CopyOf(other: Channel)
      requires other.Valid()
      ensures Valid() && kind == other.kind
      ensures name == other.name
      ensures rxFrequency == other.rxFrequency && txFrequency == other.txFrequency
      ensures defaultPower == other.defaultPower && power == other.power
      ensures timeout == other.timeout && rxOnly == other.rxOnly && vox == other.vox
      ensures scanList == other.scanList && ext == other.ext
    {
      kind := other.kind;
      name, rxFrequency, txFrequency := other.name, other.rxFrequency, other.txFrequency;
      defaultPower, power := other.defaultPower, other.power;
      timeout, rxOnly, vox := other.timeout, other.rxOnly, other.vox;
      scanList, ext := other.scanList, other.ext;
    }

    /** Overwrites this channel with the fields of `other`, keeping this
        channel's identity. Fails, changing nothing, when the two channels
        are of different kinds. */
    method CopyFrom(other: Channel) returns (ok: bool)
      requires Valid() && other.Valid()
      modifies this
      ensures Valid()
      ensures ok <==> other.kind == kind
      ensures !ok ==> unchanged(this)
      ensures ok ==> name == other.name && rxFrequency == other.rxFrequency
      ensures ok ==> txFrequency == other.txFrequency && defaultPower == other.defaultPower
      ensures ok ==> power == other.power && timeout == other.timeout && rxOnly == other.rxOnly
      ensures ok ==> vox == other.vox && scanList == other.scanList && ext == other.ext
    {
      ok := other.kind == kind;
      if ok {
        name, rxFrequency, txFrequency := other.name, other.rxFrequency, other.txFrequency;
        defaultPower, power := other.defaultPower, other.power;
        timeout, rxOnly, vox := other.timeout, other.rxOnly, other.vox;
        scanList, ext := other.scanList, other.ext;
      }
    }

    /** Renames the channel; an empty name is refused. */
    method SetName(n: string) returns (ok: bool)
      requires Valid()
      modifies this`name
      ensures Valid()
      ensures ok <==> n != ""
      ensures name == if ok then n else old(name)
    {
      ok := n != "";
      if ok { name := n; }
    }

    /** Sets the receive frequency; a frequency of zero is refused. */
    method SetRXFrequency(freq: nat) returns (ok: bool)
      requires Valid()
      modifies this`rxFrequency
      ensures Valid()
      ensures ok <==> freq > 0
      ensures rxFrequency == if ok then freq else old(rxFrequency)
    {
      ok := freq > 0;
      if ok { rxFrequency := freq; }
    }

    /** Sets the transmit frequency; a frequency of zero is refused. */
    method SetTXFrequency(freq: nat) returns (ok: bool)
      requires Valid()
      modifies this`txFrequency
      ensures Valid()
      ensures ok <==> freq > 0
      ensures txFrequency == if ok then freq else old(txFrequency)
    {
      ok := freq > 0;
      if ok { txFrequency := freq; }
    }

    /** Overrides the global default power with `p`. */
    method SetPower(p: Power)
      requires Valid()
      modifies this`defaultPower, this`power
      ensures Valid()
      ensures !defaultPower && power == p
    {
      defaultPower, power := false, p;
    }

    /** Makes the channel follow the global default power again; the
        previously chosen power stays stored. */
    method SetDefaultPower()
      requires Valid()
      modifies this`defaultPower
      ensures Valid()
      ensures defaultPower
    {
      defaultPower := true;
    }

    /** Sets an explicit transmit timeout of `dur` seconds. */
    method SetTimeout(dur: uint32) returns (ok: bool)
      requires Valid()
      modifies this`timeout
      ensures Valid()
      ensures ok
      ensures timeout.IsExplicit() && timeout.value == dur
      ensures !timeout.IsDefault() && !timeout.IsDisabled()
    {
      timeout := Explicit(dur);
      ok := true;
    }

    /** Switches the transmit timeout off. */
    method DisableTimeout()
      requires Valid()
      modifies this`timeout
      ensures Valid()
      ensures timeout.IsDisabled() && !timeout.IsDefault() && !timeout.IsExplicit()
    {
      timeout := Disabled;
    }

    /** Makes the transmit timeout follow the global default. */
    method SetDefaultTimeout()
      requires Valid()
      modifies this`timeout
      ensures Valid()
      ensures timeout.IsDefault() && !timeout.IsDisabled() && !timeout.IsExplicit()
    {
      timeout := Default;
    }

    /** Marks the channel receive-only or not. */
    method SetRXOnly(enable: bool) returns (ok: bool)
      requires Valid()
      modifies this`rxOnly
      ensures Valid()
      ensures ok && rxOnly == enable
    {
      rxOnly := enable;
      ok := true;
    }

    /** Sets an explicit VOX level; the level is documented as [0,10]. */
    method SetVOX(level: uint32)
      requires Valid()
      requires level <= 10
      modifies this`vox
      ensures Valid()
      ensures vox.IsExplicit() && vox.value == level
      ensures !vox.IsDefault() && !vox.IsDisabled()
    {
      vox := Explicit(level);
    }

    /** Makes the VOX setting follow the global default. */
    method SetVOXDefault()
      requires Valid()
      modifies this`vox
      ensures Valid()
      ensures vox.IsDefault() && !vox.IsDisabled() && !vox.IsExplicit()
    {
      vox := Default;
    }

    /** Switches VOX off. */
    method DisableVOX()
      requires Valid()
      modifies this`vox
      ensures Valid()
      ensures vox.IsDisabled() && !vox.IsDefault() && !vox.IsExplicit()
    {
      vox := Disabled;
    }

    /** Points the scan-list reference at `list` (null unsets it); an
        object that is not a scan list is refused. */
    method SetScanListObj(list: Option<ObjectId>) returns (ok: bool)
      requires Valid()
      modifies this`scanList
      ensures Valid()
      ensures ok <==> Admits(ScanListTargets, list)
      ensures scanList == if ok then list else old(scanList)
    {
      ok := Admits(ScanListTargets, list);
      if ok { scanList := list; }
    }

    // Analog channels

    /** Sets the admit criterion of an analog channel. */
    method SetAnalogAdmit(admit: AnalogAdmit)
      requires Valid() && IsAnalog()
      modifies this`ext
      ensures Valid()
      ensures ext == old(ext).(analogAdmit := admit)
    {
      ext := ext.(analogAdmit := admit);
    }

    /** Sets the squelch level; levels above 10 are refused. Level 0 is
        documented to switch the squelch off, so it selects the disabled
        state; levels 1 to 10 are explicit. */
    method SetSquelch(level: uint32) returns (ok: bool)
      requires Valid() && IsAnalog()
      modifies this`ext
      ensures Valid()
      ensures ok <==> level <= 10
      ensures ok && level == 0 ==> ext == old(ext).(squelch := Disabled)
      ensures ok && level > 0 ==> ext == old(ext).(squelch := Explicit(level))
      ensures ok && level > 0 ==> !ext.squelch.IsDefault() && !ext.squelch.IsDisabled()
      ensures !ok ==> ext == old(ext)
    {
      ok := level <= 10;
      if ok {
        ext := ext.(squelch := if level == 0 then Disabled else Explicit(level));
      }
    }

    /** Switches the squelch off. */
    method DisableSquelch()
      requires Valid() && IsAnalog()
      modifies this`ext
      ensures Valid()
      ensures ext == old(ext).(squelch := Disabled)
    {
      ext := ext.(squelch := Disabled);
    }

    /** Makes the squelch follow the global default. */
    method SetSquelchDefault()
      requires Valid() && IsAnalog()
      modifies this`ext
      ensures Valid()
      ensures ext == old(ext).(squelch := Default)
    {
      ext := ext.(squelch := Default);
    }

    /** Sets the receive tone; `SignalingNone` switches it off. */
    method SetRXTone(code: ToneCode) returns (ok: bool)
      requires Valid() && IsAnalog()
      modifies this`ext
      ensures Valid()
      ensures ok && ext == old(ext).(rxTone := code)
    {
      ext := ext.(rxTone := code);
      ok := true;
    }

    /** Sets the transmit tone; `SignalingNone` switches it off. */
    method SetTXTone(code: ToneCode) returns (ok: bool)
      requires Valid() && IsAnalog()
      modifies this`ext
      ensures Valid()
      ensures ok && ext == old(ext).(txTone := code)
    {
      ext := ext.(txTone := code);
      ok := true;
    }

    /** Sets the bandwidth of an analog channel. */
    method SetBandwidth(bw: Bandwidth) returns (ok: bool)
      requires Valid() && IsAnalog()
      modifies this`ext
      ensures Valid()
      ensures ok && ext == old(ext).(bandwidth := bw)
    {
      ext := ext.(bandwidth := bw);
      ok := true;
    }

    /** Points the APRS reference at `sys` (null disables APRS). The setter
        reports nothing: an object that is not an APRS system is ignored. */
    method SetAPRSSystem(sys: Option<ObjectId>)
      requires Valid() && IsAnalog()
      modifies this`ext
      ensures Valid()
      ensures ext == if Admits(APRSTargets, sys) then old(ext).(aprs := sys) else old(ext)
    {
      if Admits(APRSTargets, sys) { ext := ext.(aprs := sys); }
    }

    // Digital channels

    /** Sets the admit criterion of a digital channel. */
    method SetDigitalAdmit(admit: DigitalAdmit)
      requires Valid() && IsDigital()
      modifies this`ext
      ensures Valid()
      ensures ext == old(ext).(digitalAdmit := admit)
    {
      ext := ext.(digitalAdmit := admit);
    }

    /** Sets the colour code. */
    method SetColorCode(cc: uint32) returns (ok: bool)
      requires Valid() && IsDigital()
      modifies this`ext
      ensures Valid()
      ensures ok && ext == old(ext).(colorCode := cc)
    {
      ext := ext.(colorCode := cc);
      ok := true;
    }

    /** Sets the time slot. */
    method SetTimeSlot(ts: TimeSlot) returns (ok: bool)
      requires Valid() && IsDigital()
      modifies this`ext
      ensures Valid()
      ensures ok && ext == old(ext).(timeSlot := ts)
    {
      ext := ext.(timeSlot := ts);
      ok := true;
    }

    /** Points the receive group-list reference at `g` (null unsets it). */
    method SetGroupListObj(g: Option<ObjectId>) returns (ok: bool)
      requires Valid() && IsDigital()
      modifies this`ext
      ensures Valid()
      ensures ok <==> Admits(GroupListTargets, g)
      ensures ext == if ok then old(ext).(groupList := g) else old(ext)
    {
      ok := Admits(GroupListTargets, g);
      if ok { ext := ext.(groupList := g); }
    }

    /** Points the transmit-contact reference at `c` (null unsets it). */
    method SetTXContactObj(c: Option<ObjectId>) returns (ok: bool)
      requires Valid() && IsDigital()
      modifies this`ext
      ensures Valid()
      ensures ok <==> Admits(ContactTargets, c)
      ensures ext == if ok then old(ext).(txContact := c) else old(ext)
    {
      ok := Admits(ContactTargets, c);
      if ok { ext := ext.(txContact := c); }
    }

    /** Points the positioning-system reference at `sys` (GPS or APRS; null
        unsets it). */
    method SetAPRSObj(sys: Option<ObjectId>) returns (ok: bool)
      requires Valid() && IsDigital()
      modifies this`ext
      ensures Valid()
      ensures ok <==> Admits(PositioningTargets, sys)
      ensures ext == if ok then old(ext).(posSystem := sys) else old(ext)
    {
      ok := Admits(PositioningTargets, sys);
      if ok { ext := ext.(posSystem := sys); }
    }

    /** Points the roaming-zone reference at `zone` (null unsets it). */
    method SetRoamingZone(zone: Option<ObjectId>) returns (ok: bool)
      requires Valid() && IsDigital()
      modifies this`ext
      ensures Valid()
      ensures ok <==> Admits(RoamingTargets, zone)
      ensures ext == if ok then old(ext).(roaming := zone) else old(ext)
    {
      ok := Admits(RoamingTargets, zone);
      if ok { ext := ext.(roaming := zone); }
    }

    /** The channel transmits with the radio's default ID. */
    predicate UsesDefaultId()
      reads this
      requires Valid() && IsDigital()
    {
      ext.radioId.None?
    }

    /** The radio ID of the channel, null when the default ID is used. */
    function RadioIdObj(): (id: Option<ObjectId>)
      reads this
      requires Valid() && IsDigital()
      ensures id.None? <==> UsesDefaultId()
      ensures id.Some? ==> id.value.kind == RadioIDObj
    {
      ext.radioId
    }

    /** Associates the radio ID `id` with the channel; null selects the
        default ID. A non-null id is kept as given. */
    method SetRadioIdObj(id: Option<ObjectId>) returns (ok: bool)
      requires Valid() && IsDigital()
      modifies this`ext
      ensures Valid()
      ensures ok <==> Admits(RadioIdTargets, id)
      ensures ok ==> RadioIdObj() == id && (UsesDefaultId() <==> id.None?)
      ensures ext == if ok then old(ext).(radioId := id) else old(ext)
    {
      ok := Admits(RadioIdTargets, id);
      if ok { ext := ext.(radioId := id); }
    }

    /** This is a digital channel on frequencies `rx`/`tx`, time slot `ts`
        and colour code `cc`. */
    predicate MatchesDigital(rx: nat, tx: nat, ts: TimeSlot, cc: uint32)
      reads this
    {
      && IsDigital() && ext.DigitalExt?
      && rxFrequency == rx && txFrequency == tx
      && ext.timeSlot == ts && ext.colorCode == cc
    }

    /** This is an analog channel transmitting on `freq`. */
    predicate MatchesAnalogTx(freq: nat)
      reads this
    {
      IsAnalog() && txFrequency == freq
    }
  }

  /** The ordered list of all channels of a codeplug. */
  class ChannelList {
    var channels: seq<Channel>

    ghost predicate Valid()
      reads this, channels
    {
      && Distinct(channels)
      && forall i :: 0 <= i < |channels| ==> channels[i].Valid()
    }

    /** An empty channel list. */
    constructor ()
      ensures Valid() && channels == []
    {
      channels := [];
    }

    /** `add(obj, row)`: inserts `c` before position `row`, or appends it for
        the default `row = -1`, and returns its index. A channel that is
        already in the list is refused with -1 and nothing changes. */
    method Add(c: Channel, row: int := -1) returns (idx: int)
      requires Valid() && c.Valid()
      modifies this`channels
      ensures Valid()
      ensures c in old(channels) ==> idx == -1 && channels == old(channels)
      ensures c !in old(channels) ==>
        && idx == InsertionIndex(|old(channels)|, row)
        && channels == Inserted(old(channels), c, idx)
      ensures c !in old(channels) && row == -1 ==>
        idx == |old(channels)| && channels == old(channels) + [c]
    {
      if c in channels {
        return -1;
      }
      idx := InsertionIndex(|channels|, row);
      InsertedDistinct(channels, c, idx);
      InsertedAt(channels, c, idx);
      channels := Inserted(channels, c, idx);
    }

    /** `channel(idx)`: the channel at flat index `idx`, null outside the list. */
    function ChannelAt(idx: int): (c: Channel?)
      reads this
      ensures c != null <==> 0 <= idx < |channels|
      ensures c != null ==> c == channels[idx]
    {
      if 0 <= idx < |channels| then channels[idx] else null
    }

    /** The first digital channel, in list order, with receive frequency
        `rx`, transmit frequency `tx`, time slot `ts` and colour code `cc`;
        null when there is none. */
    method FindDigitalChannel(rx: nat, tx: nat, ts: TimeSlot, cc: uint32) returns (r: Channel?)
      ensures r == null <==>
        forall i :: 0 <= i < |channels| ==> !channels[i].MatchesDigital(rx, tx, ts, cc)
      ensures r != null ==> r.IsDigital() && exists i ::
        && 0 <= i < |channels| && channels[i] == r
        && r.MatchesDigital(rx, tx, ts, cc)
        && forall j :: 0 <= j < i ==> !channels[j].MatchesDigital(rx, tx, ts, cc)
    {
      var i := 0;
      while i < |channels|
        invariant 0 <= i <= |channels|
        invariant forall j :: 0 <= j < i ==> !channels[j].MatchesDigital(rx, tx, ts, cc)
      {
        if channels[i].MatchesDigital(rx, tx, ts, cc) {
          return channels[i];
        }
        i := i + 1;
      }
      return null;
    }

    /** The first analog channel, in list order, whose transmit frequency is
        `freq`; null when there is none. A digital channel is never returned. */
    method FindAnalogChannelByTxFreq(freq: nat) returns (r: Channel?)
      ensures r == null <==>
        forall i :: 0 <= i < |channels| ==> !channels[i].MatchesAnalogTx(freq)
      ensures r != null ==> r.IsAnalog() && !r.IsDigital() && exists i ::
        && 0 <= i < |channels| && channels[i] == r
        && r.txFrequency == freq
        && forall j :: 0 <= j < i ==> !channels[j].MatchesAnalogTx(freq)
    {
      var i := 0;
      while i < |channels|
        invariant 0 <= i <= |channels|
        invariant forall j :: 0 <= j < i ==> !channels[j].MatchesAnalogTx(freq)
      {
        if channels[i].MatchesAnalogTx(freq) {
          return channels[i];
        }
        i := i + 1;
      }
      return null;
    }
  }
}
