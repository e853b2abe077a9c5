# qdmr codeplug objects in Dafny

This project models the core of the configuration object model of qdmr, a
codeplug programming tool for DMR and analog radios. It covers three parts:

- **Channels** (`channel.dfy`, module `Channels`):
  - the fields every channel has: name, RX/TX frequency, power, transmit timeout, RX-only flag, VOX and the scan-list reference;
  - the fields an analog channel adds: admit criterion, squelch, RX/TX tone, bandwidth and the APRS system;
  - the fields a digital channel adds: admit criterion, colour code, time slot, and references to the group list, TX contact, positioning system, roaming zone and radio ID;
  - the channel list with `add`, `channel(idx)` and its two first-hit searches.
- **Contacts** (`contact.dfy`, module `Contacts`):
  - DTMF contacts, whose number is limited to the DTMF alphabet;
  - digital contacts, with a call type and a DMR number;
  - the contact list, which keeps one order but numbers digital and DTMF contacts separately. The count, forward lookup, reverse lookup and number search all work on those two derived orders.
- **CRC32** (`crc32.dfy`, module `Crc32`): the 32-bit checksum accumulator. It is updated byte by byte or from a buffer, and can be read at any point.

Two small modules hold what both lists share:

- `config_object.dfy` (module `ConfigObject`):
  - optional references (`Option<ObjectId>`), where `ObjectId` carries the kind of the referenced object;
  - `uint32`;
  - the three-way setting `TriState<T> = Default | Disabled | Explicit(value)`. It replaces the sentinel values that the C++ classes store in one `unsigned` for timeout, VOX and squelch.
- `object_list.dfy` (module `ObjectList`): where `add(obj, row)` puts a new element, and why the list stays free of duplicates.

How the C++ classes become Dafny classes:

- A C++ base class with its two subclasses becomes one Dafny class. Its `const kind` records which subclass an object is, and its `var ext` datatype holds that subclass's own fields.
- `is<T>()` and `as<T>()` become `IsAnalog`/`AsAnalog` and the other such members.
- Setters are methods that change only the fields they name in `modifies`.
- Frequencies are whole numbers of Hz, so the searches compare them exactly.
- `ContactList`'s digital and DTMF orders are the function `OfKind` of the one list. The lemmas about `OfKind` give the counts, the indices and the effect of `add`.

The CRC step is the table-driven, reflected CRC-32 with the generator polynomial of IEEE 802.3 (0x04C11DB7, bit-reversed to 0xEDB88320). Table entries are computed from the polynomial, and the register starts at 0xFFFFFFFF. `get()` returns the raw register with no final complement. For the input "123456789" the register is proved to hold 0x340BC6D9, the bitwise complement of the published CRC-32 check value 0xCBF43926.

## Model

| member | source | states |
|---|---|---|
| ConfigObject.TriStateExactlyOne | lib/channel.hh:120-149 | a timeout, VOX or squelch setting is exactly one of default, disabled and explicit |
| ObjectList.InsertionIndex | lib/channel.hh:470 | `add` inserts at `row` when it lies within the list or at its end; it appends for the default `row = -1` |
| ObjectList.InsertedAt | lib/contact.hh:200 | after insertion the new element is at its index, earlier elements keep their index and later ones move up by one |
| ObjectList.InsertedDistinct | lib/contact.hh:200 | inserting an object not yet in a duplicate-free list keeps the list duplicate-free |
| Channels.Channel.IsAnalog | lib/channel.hh:77-83 | `is<AnalogChannel>()` holds exactly for the channels that are not digital |
| Channels.Channel.IsDigital | lib/channel.hh:77-83 | `is<DigitalChannel>()` holds exactly for the channels that are not analog |
| Channels.Channel.AsAnalog | lib/channel.hh:77-95 | `as<AnalogChannel>()` is non-null exactly for analog channels and is then the channel itself, never a digital one |
| Channels.Channel.AsDigital | lib/channel.hh:77-95 | `as<DigitalChannel>()` is non-null exactly for digital channels and is then the channel itself |
| Channels.Channel.Analog | lib/channel.hh:227 | a new analog channel uses default power, timeout, VOX and squelch, and has no tones and no references |
| Channels.Channel.Digital | lib/channel.hh:337 | a new digital channel uses default power, timeout and VOX, has no references, and uses the default radio ID |
| Channels.Channel.CopyOf | lib/channel.hh:73-75 | the copy has the same kind and the same value in every field; referenced objects are shared |
| Channels.Channel.CopyFrom | src/digitalchanneldialog.cc:186 | copying from a channel of the same kind overwrites every field; copying from a channel of the other kind fails and changes nothing |
| Channels.Channel.SetName | lib/channel.hh:96-99 | the setter succeeds exactly for a non-empty name, and on success the name is set; otherwise it is unchanged |
| Channels.Channel.SetRXFrequency | lib/channel.hh:101-104 | the setter succeeds exactly for a positive frequency, and on success the RX frequency is set; otherwise it is unchanged |
| Channels.Channel.SetTXFrequency | lib/channel.hh:105-108 | the setter succeeds exactly for a positive frequency, and on success the TX frequency is set; otherwise it is unchanged |
| Channels.Channel.SetPower | lib/channel.hh:111-116 | afterwards `defaultPower()` is false and `power()` is `p` |
| Channels.Channel.SetDefaultPower | lib/channel.hh:117-118 | afterwards `defaultPower()` is true |
| Channels.Channel.SetTimeout | lib/channel.hh:120-127 | the setter succeeds; the timeout is explicit, equal to `dur`, and neither default nor disabled |
| Channels.Channel.DisableTimeout | lib/channel.hh:128-129 | the timeout is disabled, and neither default nor explicit |
| Channels.Channel.SetDefaultTimeout | lib/channel.hh:130-131 | the timeout follows the default, and is neither disabled nor explicit |
| Channels.Channel.SetRXOnly | lib/channel.hh:133-136 | afterwards `rxOnly()` is `enable` |
| Channels.Channel.SetVOX | lib/channel.hh:138-145 | the VOX is explicit with the given level in [0,10], and neither default nor disabled |
| Channels.Channel.SetVOXDefault | lib/channel.hh:146-147 | the VOX follows the default, and is neither disabled nor explicit |
| Channels.Channel.DisableVOX | lib/channel.hh:148-149 | the VOX is disabled, and neither default nor explicit |
| Channels.Channel.SetScanListObj | lib/channel.hh:151-159 | the setter succeeds exactly for null or a scan list, and only then changes the reference |
| Channels.Channel.SetAnalogAdmit | lib/channel.hh:233-236 | only the admit criterion changes, and it becomes `admit` |
| Channels.Channel.SetSquelch | lib/channel.hh:238-245 | the setter succeeds exactly for levels up to 10; level 0 switches the squelch off, levels 1 to 10 make it explicit with that level, and a refused level changes nothing |
| Channels.Channel.DisableSquelch | lib/channel.hh:246-247 | only the squelch changes, and it becomes disabled |
| Channels.Channel.SetSquelchDefault | lib/channel.hh:248-249 | only the squelch changes, and it follows the default |
| Channels.Channel.SetRXTone | lib/channel.hh:251-254 | only the RX tone changes, and it becomes `code` |
| Channels.Channel.SetTXTone | lib/channel.hh:255-258 | only the TX tone changes, and it becomes `code` |
| Channels.Channel.SetBandwidth | lib/channel.hh:260-263 | only the bandwidth changes, and it becomes `bw` |
| Channels.Channel.SetAPRSSystem | lib/channel.hh:265-272 | the APRS reference becomes `sys` when that is null or an APRS system; otherwise nothing changes |
| Channels.Channel.SetDigitalAdmit | lib/channel.hh:343-346 | only the admit criterion changes, and it becomes `admit` |
| Channels.Channel.SetColorCode | lib/channel.hh:348-351 | only the colour code changes, and it becomes `cc` |
| Channels.Channel.SetTimeSlot | lib/channel.hh:353-356 | only the time slot changes, and it becomes `ts` |
| Channels.Channel.SetGroupListObj | lib/channel.hh:358-365 | the setter succeeds exactly for null or a group list, and only then changes the reference |
| Channels.Channel.SetTXContactObj | lib/channel.hh:367-374 | the setter succeeds exactly for null or a digital contact, and only then changes the reference |
| Channels.Channel.SetAPRSObj | lib/channel.hh:376-383 | the setter succeeds exactly for null, a GPS system or an APRS system, and only then changes the reference |
| Channels.Channel.SetRoamingZone | lib/channel.hh:385-392 | the setter succeeds exactly for null or a roaming zone, and only then changes the reference |
| Channels.Channel.RadioIdObj | lib/channel.hh:398-399 | the radio ID is null exactly when the default ID is used; otherwise it is a radio-ID object |
| Channels.Channel.SetRadioIdObj | lib/channel.hh:400-401 | null selects the default ID, and a radio ID is then read back unchanged; an object of any other kind is refused |
| Channels.ChannelList.constructor | lib/channel.hh:468 | a new channel list is empty |
| Channels.ChannelList.Add | lib/channel.hh:470 | with the default `row = -1` the channel is appended, the earlier entries stay, and its index is the old length; another row inserts it at that position (the duplicate and out-of-range rules are this model's, see below) |
| Channels.ChannelList.ChannelAt | lib/channel.hh:472-473 | non-null exactly for an index within the list, and then the channel at that index |
| Channels.ChannelList.FindDigitalChannel | lib/channel.hh:475-476 | null exactly when no channel is digital with those rx, tx, time slot and colour code; otherwise the first such channel in list order |
| Channels.ChannelList.FindAnalogChannelByTxFreq | lib/channel.hh:478-479 | null exactly when no analog channel transmits on `freq`; otherwise the first such channel, never a digital one |
| Contacts.CheckDTMFNumber | lib/contact.hh:102-117 | true exactly when every character is one of 0-9, A, B, C, D, `*` and `#` |
| Contacts.DTMFNumberExamples | lib/contact.hh:102-117 | "123*#AB" is accepted and "12E3" is refused |
| Contacts.Contact.IsDTMF | lib/contact.hh:27-35 | `is<DTMFContact>()` holds exactly for the contacts that are not digital, since the base class cannot be instantiated |
| Contacts.Contact.IsDigital | lib/contact.hh:50-57 | `is<DigitalContact>()` holds exactly for the contacts that are not DTMF |
| Contacts.Contact.AsDTMF | lib/contact.hh:50-67 | `as<DTMFContact>()` is non-null exactly for DTMF contacts and is then the contact itself |
| Contacts.Contact.AsDigital | lib/contact.hh:50-67 | `as<DigitalContact>()` is non-null exactly for digital contacts and is then the contact itself |
| Contacts.Contact.DTMF | lib/contact.hh:90-98 | a new DTMF contact holds the given name, number and ring flag |
| Contacts.Contact.Digital | lib/contact.hh:149-157 | a new digital contact holds the given call type, name, DMR number and ring flag |
| Contacts.Contact.SetName | lib/contact.hh:38-42 | the setter succeeds exactly for a non-empty name, and on success the name is set |
| Contacts.Contact.SetRing | lib/contact.hh:44-48 | afterwards `ring()` is `enable` |
| Contacts.Contact.SetDTMFNumber | lib/contact.hh:116-117 | the setter succeeds exactly for a number over the DTMF alphabet; on success the number is set, otherwise nothing changes |
| Contacts.Contact.SetType | lib/contact.hh:161-165 | only the call type changes, and it becomes `t` |
| Contacts.Contact.SetDigitalNumber | lib/contact.hh:167-171 | the setter succeeds, and only the DMR number changes, to `number` |
| Contacts.OfKindConcat | lib/contact.hh:185-187 | the contacts of one kind in a concatenation are those of each part, in order |
| Contacts.OfKindPrefixStep | lib/contact.hh:185-187 | one more list element extends the selection of a kind exactly when it is of that kind |
| Contacts.OfKindMembers | lib/contact.hh:185-187 | a contact is in the selection of a kind exactly when it is in the list and of that kind |
| Contacts.KindCountsAddUp | lib/contact.hh:27-35 | since every contact is digital or DTMF, the two selections together are as long as the list |
| Contacts.OfKindDistinct | lib/contact.hh:185-187 | the selection from a duplicate-free list is duplicate-free, so a contact's index within its kind is unique |
| Contacts.OfKindInserted | lib/contact.hh:200 | an inserted contact joins its own kind's order between the contacts before and after it; the other kind's order is unchanged |
| Contacts.ContactList.constructor | lib/contact.hh:198 | a new contact list is empty |
| Contacts.ContactList.Add | lib/contact.hh:200 | with the default `row = -1` the contact is appended, and both derived orders stay the sub-sequences of the new list; another row inserts it at that position and its kind's order gains it in place (the duplicate and out-of-range rules are this model's, see below) |
| Contacts.ContactList.ContactAt | lib/contact.hh:208-209 | non-null exactly for an index within the list, and then the contact at that index |
| Contacts.ContactList.CountOf | lib/contact.hh:202-206 | the counting loop returns the length of the selection of the kind |
| Contacts.ContactList.DigitalCount | lib/contact.hh:202-203 | the number of digital contacts, at most the list length |
| Contacts.ContactList.DTMFCount | lib/contact.hh:205-206 | the number of DTMF contacts, at most the list length |
| Contacts.ContactList.NthOfKind | lib/contact.hh:211-218 | the `idx`-th contact of a kind in list order, or null when `idx` is out of range |
| Contacts.ContactList.DigitalContact | lib/contact.hh:211-212 | for `idx` in [0, `digitalCount()`), the `idx`-th digital contact in list order; otherwise null |
| Contacts.ContactList.DTMFContact | lib/contact.hh:217-218 | for `idx` in [0, `dtmfCount()`), the `idx`-th DTMF contact in list order; otherwise null |
| Contacts.ContactList.IndexOfKind | lib/contact.hh:220-224 | -1 exactly when the contact is not in the selection; otherwise its unique index there |
| Contacts.ContactList.IndexOfDigital | lib/contact.hh:220-221 | -1 exactly when the digital contact is not in the list; otherwise its unique index among the digital contacts |
| Contacts.ContactList.IndexOfDTMF | lib/contact.hh:223-224 | -1 exactly when the DTMF contact is not in the list; otherwise its unique index among the DTMF contacts |
| Contacts.ContactList.FindDigitalContact | lib/contact.hh:214-215 | null exactly when no digital contact has that number; otherwise the first one in list order that has it |
| Contacts.ContactList.DigitalIndexRoundTrip | lib/contact.hh:211-221 | `indexOfDigital(digitalContact(i)) == i` for every digital index `i` |
| Contacts.ContactList.DTMFIndexRoundTrip | lib/contact.hh:217-224 | `indexOfDTMF(dtmfContact(i)) == i` for every DTMF index `i` |
| Contacts.ThreeContactOrders | lib/contact.hh:185-187 | the list D1, F1, D2 has digital order [D1, D2] and DTMF order [F1] |
| Contacts.ContactListLookups | lib/contact.hh:202-221 | for D1, F1, D2 with only D2 carrying number 2: the counts are 2 and 1, digital contact 1 is D2, D2's digital index is 1, and the search for number 2 returns D2 |
| Crc32.CrcConcat | lib/crc32.hh:18-25 | updating with `a` and then with `b` leaves the register that updating with `a ++ b` leaves |
| Crc32.ChecksumConcat | lib/crc32.hh:18-25 | the checksum of `a ++ b` is the checksum of `b` continued from the register after `a` |
| Crc32.CrcSnoc | lib/crc32.hh:18-19 | one more byte is one more `update` step |
| Crc32.CheckSteps | lib/crc32.hh:18-19 | the register after each byte of "123456789", starting from the seed |
| Crc32.CheckFirstHalf | lib/crc32.hh:15-19 | after "12345" a fresh accumulator holds 0x340AC5E3 |
| Crc32.CheckSecondHalf | lib/crc32.hh:18-19 | continuing with "6789" from 0x340AC5E3 gives 0x340BC6D9 |
| Crc32.CheckValue | lib/crc32.hh:15-28 | "123456789" gives 0x340BC6D9, whose complement is the published CRC-32 check value 0xCBF43926 |
| Crc32.CRC32.constructor | lib/crc32.hh:15-16 | a fresh accumulator holds the fixed seed and has consumed nothing |
| Crc32.CRC32.Update | lib/crc32.hh:18-19 | the register advances by one step for `c`, and stays the checksum of every byte consumed |
| Crc32.CRC32.UpdateBuffer | lib/crc32.hh:21-22 | `update(c, n)` equals `n` successive `update(c[k])` calls for k = 0..n-1 |
| Crc32.CRC32.UpdateData | lib/crc32.hh:24-25 | `update(data)` equals `update(bytes, size)` over the same bytes |
| Crc32.CRC32.Get | lib/crc32.hh:27-28 | `get()` changes nothing and returns the checksum of every byte consumed so far |
| Crc32.FeedTwoWays | lib/crc32.hh:15-25 | two fresh accumulators fed the same bytes, one whole and one byte by byte, return equal `get()` |
| Crc32.MidStreamRead | lib/crc32.hh:19-28 | a mid-stream `get()` returns the checksum so far, and the final reading continues from it |

## Left out

- Only the headers `lib/channel.hh`, `lib/contact.hh` and `lib/crc32.hh` are part of this model; the matching `.cc` files are not. The headers give most setters a `bool` result without saying when it is false, so the validation rules are this model's choices, not the source's:
  - names must be non-empty (the headers give no domain for names);
  - frequencies must be positive (the headers give no domain for frequencies);
  - squelch must be at most 10 (from the documented range [0,10]);
  - a DTMF number must be over the DTMF alphabet, as documented (the empty number is accepted);
  - `setTimeout`, `setColorCode` and the digital contact's `setNumber` accept every `unsigned`, although their `bool` results suggest that the source may refuse some values.
- Channels.ChannelList.Add: the header shows only the signature. Returning -1 and changing nothing for a channel already in the list, and appending for every row outside [0, length], are this model's choices.
- Contacts.ContactList.Add: the header shows only the signature. Returning -1 and changing nothing for a contact already in the list, and appending for every row outside [0, length], are this model's choices.
- Frequencies are `double` MHz in the source. They are modelled as whole Hz, with no floating-point arithmetic.
- Timeout, VOX and squelch use sentinel values in one `unsigned` in the source. They are modelled as `TriState`, so the sentinel encoding itself is not modelled.
- Channels.Channel.SetTimeout: every `dur`, including 0 and 0xFFFFFFFF, reads back as an explicit timeout. The source keeps default, disabled and the seconds in one `unsigned` (lib/channel.hh:180), so at least two values of `dur` cannot read back as explicit there; which ones is decided in `lib/channel.cc`, which is not part of this model.
- Channels.Channel.SetVOX: requires a level in [0,10]. The setter is `void`, and what it does with a larger level is not in the header. Level 0 reads back as an explicit level 0; if the source's single `unsigned` (lib/channel.hh:184) uses 0 for "disabled", `setVOX(0)` disables VOX there.
- Channels.Channel.SetSquelch: level 0 selects the disabled state, following the documentation at lib/channel.hh:244. A squelch that reads back as explicit level 0 therefore cannot be produced by this setter. That the source stores "disabled" as 0 is this model's reading of that line.
- Contacts.Contact.DTMF: requires a number over the DTMF alphabet. The header documents the alphabet, but what the constructor does with another number is not in it.
- Channels.Channel.CopyFrom: the generic `copy()` belongs to the configuration-object base class, which is not part of this model. The failure on a kind mismatch is this model's choice.
- Channels.Channel.SetRadioIdObj: null selects the default ID, following lib/channel.hh:400. The dialog in `src/digitalchanneldialog.cc` (lines 97 and 155) selects "[Default]" by passing the non-null `DefaultRadioID::get()` object instead. How the source maps that object to the default ID is outside this model; here it would be stored as an explicit radio ID.
- Channels.Channel.SetPower: `setDefaultPower` keeps the power stored before; only the flag changes.
- YAML serialisation (`serialize`, `populate`) is left out. It depends on yaml-cpp and on the configuration context, which are not part of this model.
- Qt signals and slots (`onReferenceModified`) are left out, and so are clearing references when the referenced object is deleted. The table-model side of the lists is left out too, and so are `ConfigObjectList` internals such as removal and ownership. References are plain optional ids.
- The `SelectedChannel` singleton is left out. It is global UI state.
- `Signaling::Code` is an opaque tone code; the CTCSS/DCS tables are not modelled.
- `add` of an object that is not a channel (or not a contact) is left out. The model's parameter type excludes it.
- `src/digitalchanneldialog.cc`, `src/main.cc` and the list-view widgets are left out. They are presentation only.
- Crc32.Step: the CRC table is computed from the polynomial. Its agreement with a bit-serial CRC register is not proved; the table-driven step is checked against the standard check value "123456789" instead.
- Crc32: the seed 0xFFFFFFFF and the polynomial 0xEDB88320 are the conventional IEEE 802.3 CRC-32. The file that fixes them (`lib/crc32.cc`) is not part of this model.
- Crc32.CRC32.UpdateBuffer: a raw pointer with a length is modelled as an array with a count `n <= c.Length`. Reading past the buffer is excluded by that requirement.
