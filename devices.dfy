/**
 * The device pickers: the USB name heuristic, the two sort comparators used on
 * the enumerated inputs and outputs, the option labels, the preservation of the
 * previous selection and the USB counts shown beside the pickers.
 */
module Devices {
  import opened Basics

  /** The `kind` of a MediaDeviceInfo. */
  datatype DeviceKind = AudioInput | AudioOutput | VideoInput

  /** A MediaDeviceInfo as the enumeration reports it; a missing label is `None`. */
  datatype Device = Device(kind: DeviceKind, deviceId: string, deviceLabel: Option<string>)

  /** Which of the two pickers is being filled. */
  datatype Direction = Inputs | Outputs

  /** One `<option>` element: its value and its text. */
  datatype SelectOption = SelectOption(value: string, text: string)

  /** A `<select>` element after it is refilled: options, disabled flag, selected value. */
  datatype Select = Select(options: seq<SelectOption>, disabled: bool, value: string)

  // ---------------------------------------------------------------------------
  // The string operations the source relies on
  // ---------------------------------------------------------------------------

  /** `toLowerCase` on one character (ASCII letters only). */
  function LowerChar(c: char): char {
    if 'A' <= c <= 'Z' then (c as int + 32) as char else c
  }

  /** `toLowerCase`, character by character. */
  function Lower(s: string): (r: string)
    ensures |r| == |s|
    ensures forall i :: 0 <= i < |s| ==> r[i] == LowerChar(s[i])
  {
    if s == [] then [] else [LowerChar(s[0])] + Lower(s[1..])
  }

  /** `t` occurs in `s` starting at index `i`. */
  ghost predicate OccursAt(s: string, t: string, i: int) {
    0 <= i && i + |t| <= |s| && s[i..i + |t|] == t
  }

  /** `s.includes(t)`: true exactly when `t` occurs somewhere in `s`. */
  function Includes(s: string, t: string): (b: bool)
    ensures b <==> exists i :: OccursAt(s, t, i)
    decreases |s|
  {
    if |t| > |s| then false
    else if s[..|t|] == t then assert OccursAt(s, t, 0); true
    else
      assert forall i :: OccursAt(s, t, i) ==> i > 0 && OccursAt(s[1..], t, i - 1) by {
        forall i | OccursAt(s, t, i) ensures i > 0 && OccursAt(s[1..], t, i - 1) {
          assert s[1..][i - 1..i - 1 + |t|] == s[i..i + |t|];
        }
      }
      assert forall j :: OccursAt(s[1..], t, j) ==> OccursAt(s, t, j + 1) by {
        forall j | OccursAt(s[1..], t, j) ensures OccursAt(s, t, j + 1) {
          assert s[1..][j..j + |t|] == s[j + 1..j + 1 + |t|];
        }
      }
      Includes(s[1..], t)
  }

  /** The characters `String.prototype.trim` removes (WhiteSpace and LineTerminator). */
  predicate IsJsWhitespace(c: char) {
    || c == '\t' || c == '\n' || c == '\U{000B}' || c == '\U{000C}' || c == '\r'
    || c == ' ' || c == '\U{00A0}' || c == '\U{1680}' || ('\U{2000}' <= c <= '\U{200A}')
    || c == '\U{2028}' || c == '\U{2029}' || c == '\U{202F}' || c == '\U{205F}'
    || c == '\U{3000}' || c == '\U{FEFF}'
  }

  /** `s.trim() === ""`: every character of `s` is whitespace. */
  function TrimIsEmpty(s: string): (b: bool)
    ensures b <==> forall i :: 0 <= i < |s| ==> IsJsWhitespace(s[i])
  {
    if s == [] then true
    else IsJsWhitespace(s[0]) && TrimIsEmpty(s[1..])
  }

  /** The value of one decimal digit character (any other character counts 0). */
  function DigitValue(c: char): nat {
    if '0' <= c <= '9' then c as int - '0' as int else 0
  }

  /** The number a string of decimal digits denotes. */
  function DigitsValue(s: string): nat {
    if s == [] then 0 else 10 * DigitsValue(s[..|s| - 1]) + DigitValue(s[|s| - 1])
  }

  /** One decimal digit. */
  function DigitChar(d: nat): (c: char)
    requires d < 10
    ensures '0' <= c <= '9' && DigitValue(c) == d
  {
    ('0' as int + d) as char
  }

  /** The decimal text of `n`, as a template literal prints it. */
  function NatToString(n: nat): (s: string)
    ensures |s| > 0
    ensures forall i :: 0 <= i < |s| ==> '0' <= s[i] <= '9'
  {
    if n < 10 then [DigitChar(n)] else NatToString(n / 10) + [DigitChar(n % 10)]
  }

  /** The decimal text of `n` denotes `n`. */
  lemma {:induction false} NatToStringValue(n: nat)
    ensures DigitsValue(NatToString(n)) == n
  {
    var s := NatToString(n);
    if n < 10 {
      assert s[..0] == [];
    } else {
      var prefix := NatToString(n / 10);
      assert s[..|s| - 1] == prefix;
      NatToStringValue(n / 10);
    }
  }

  // ---------------------------------------------------------------------------
  // USB detection
  // ---------------------------------------------------------------------------

  /** The fixed keyword list; "scarlett" is listed twice, as in the source. */
  const UsbIndicators: seq<string> := [
    "usb", "interface", "audio interface", "soundcard", "sound card",
    "focusrite", "scarlett", "behringer", "m-audio", "native instruments",
    "presonus", "motu", "rme", "apogee", "universal audio", "ua-",
    "scarlett", "2i2", "4i4", "8i6", "18i8", "solo", "duo", "quad"
  ]

  /** `keys.some(k => s.includes(k))`. */
  function AnyIncluded(s: string, keys: seq<string>): (b: bool)
    ensures b <==> exists k :: 0 <= k < |keys| && Includes(s, keys[k])
  {
    if keys == [] then false
    else Includes(s, keys[0]) || AnyIncluded(s, keys[1..])
  }

  /** The label, with a missing one read as "" (`d.deviceLabel || ""`). */
  function LabelOrEmpty(d: Device): string {
    if d.deviceLabel.Some? then d.deviceLabel.value else ""
  }

  /** The heuristic: a present, non-empty label whose lower-cased text contains an indicator. */
  function IsUsbDevice(device: Option<Device>): (b: bool)
    ensures device.None? ==> !b
    ensures device.Some? && LabelOrEmpty(device.value) == "" ==> !b
    ensures device.Some? ==>
      (b <==> exists k :: 0 <= k < |UsbIndicators| && Includes(Lower(LabelOrEmpty(device.value)), UsbIndicators[k]))
  {
    match device
    case None => false
    case Some(d) =>
      match d.deviceLabel
      case None => false
      case Some(l) =>
        if l == "" then false
        else AnyIncluded(Lower(l), UsbIndicators)
  }

  /** Shorthand for the heuristic on a device that is present. */
  predicate Usb(d: Device) {
    IsUsbDevice(Some(d))
  }

  /** Shorthand for the `"default"` sentinel id. */
  predicate IsDefault(d: Device) {
    d.deviceId == "default"
  }

  /** Every indicator has at least three characters. */
  lemma IndicatorsAtLeastThreeLong()
    ensures forall k :: 0 <= k < |UsbIndicators| ==> |UsbIndicators[k]| >= 3
  {
  }

  /** A label shorter than every indicator is never detected as USB. */
  lemma ShortLabelNotUsb(d: Device)
    requires |LabelOrEmpty(d)| < 3
    ensures !Usb(d)
  {
    IndicatorsAtLeastThreeLong();
  }

  lemma UsbExamples()
    ensures Usb(Device(AudioInput, "a1", Some("USB Mic")))
    ensures !Usb(Device(AudioInput, "a2", Some("TV")))
    ensures !Usb(Device(AudioInput, "a3", None))
  {
    assert Lower("USB Mic") == "usb mic";
    assert OccursAt("usb mic", UsbIndicators[0], 0);
    ShortLabelNotUsb(Device(AudioInput, "a2", Some("TV")));
  }

  // ---------------------------------------------------------------------------
  // Comparators
  // ---------------------------------------------------------------------------

  /**
   * The label order: `localeCompare` is replaced by the code-point
   * lexicographic order (negative, zero or positive, as localeCompare returns).
   */
  function LabelCompare(a: string, b: string): (r: int)
    ensures -1 <= r <= 1
    ensures r == 0 <==> a == b
  {
    if a == [] && b == [] then 0
    else if a == [] then -1
    else if b == [] then 1
    else if a[0] < b[0] then -1
    else if a[0] > b[0] then 1
    else
      assert a == [a[0]] + a[1..] && b == [b[0]] + b[1..];
      LabelCompare(a[1..], b[1..])
  }

  lemma {:induction false} LabelCompareAntisymmetric(a: string, b: string)
    ensures LabelCompare(a, b) == -LabelCompare(b, a)
    decreases |a|
  {
    if a != [] && b != [] && a[0] == b[0] {
      LabelCompareAntisymmetric(a[1..], b[1..]);
    }
  }

  lemma {:induction false} LabelCompareTransitive(a: string, b: string, c: string)
    requires LabelCompare(a, b) <= 0 && LabelCompare(b, c) <= 0
    ensures LabelCompare(a, c) <= 0
    decreases |a|
  {
    if a != [] && b != [] && c != [] && a[0] == b[0] && b[0] == c[0] {
      LabelCompareTransitive(a[1..], b[1..], c[1..]);
    }
  }

  /**
   * The input comparator: USB devices first, then the "default" device, then
   * labels in order (a missing label compares as "").
   */
  function DeviceCompare(a: Device, b: Device): (r: int)
    ensures Usb(a) && !Usb(b) ==> r < 0
    ensures !Usb(a) && Usb(b) ==> r > 0
    ensures Usb(a) == Usb(b) && IsDefault(a) && !IsDefault(b) ==> r < 0
    ensures Usb(a) == Usb(b) && !IsDefault(a) && IsDefault(b) ==> r > 0
    ensures Usb(a) == Usb(b) && IsDefault(a) == IsDefault(b) ==>
      r == LabelCompare(LabelOrEmpty(a), LabelOrEmpty(b))
  {
    var aIsUsb := IsUsbDevice(Some(a));
    var bIsUsb := IsUsbDevice(Some(b));
    var aIsDefault := a.deviceId == "default";
    var bIsDefault := b.deviceId == "default";
    if aIsUsb && !bIsUsb then -1
    else if !aIsUsb && bIsUsb then 1
    else if aIsDefault && !bIsDefault then -1
    else if !aIsDefault && bIsDefault then 1
    else LabelCompare(LabelOrEmpty(a), LabelOrEmpty(b))
  }

  /** The output comparator as the source writes it: both USB flags are read from `b`. */
  function OutputCompareAsWritten(a: Device, b: Device): int {
    var aIsUsb := IsUsbDevice(Some(b));
    var bIsUsb := IsUsbDevice(Some(b));
    var aIsDefault := a.deviceId == "default";
    var bIsDefault := b.deviceId == "default";
    if aIsUsb && !bIsUsb then -1
    else if !aIsUsb && bIsUsb then 1
    else if aIsDefault && !bIsDefault then -1
    else if !aIsDefault && bIsDefault then 1
    else LabelCompare(LabelOrEmpty(a), LabelOrEmpty(b))
  }

  /** A comparator that looks only at the "default" id and then at the labels. */
  function DefaultThenLabel(a: Device, b: Device): int {
    if IsDefault(a) && !IsDefault(b) then -1
    else if !IsDefault(a) && IsDefault(b) then 1
    else LabelCompare(LabelOrEmpty(a), LabelOrEmpty(b))
  }

  /** USB-ness never affects the order of outputs: the as-written comparator ignores it. */
  lemma OutputCompareIgnoresUsb(a: Device, b: Device)
    ensures OutputCompareAsWritten(a, b) == DefaultThenLabel(a, b)
  {
  }

  /** The two devices of the counterexample below, and what the heuristic says of them. */
  lemma OutputExampleDevices()
    ensures Usb(Device(AudioOutput, "s2", Some("USB DAC")))
    ensures !Usb(Device(AudioOutput, "s1", Some("TV")))
  {
    assert Lower("USB DAC") == "usb dac";
    assert OccursAt("usb dac", UsbIndicators[0], 0);
    ShortLabelNotUsb(Device(AudioOutput, "s1", Some("TV")));
  }

  /**
   * As written, the USB output "USB DAC" sorts after the non-USB output "TV"
   * (see OutputExampleDevices for which is which).
   */
  lemma OutputUsbNotFirstAsWritten()
    ensures OutputCompareAsWritten(Device(AudioOutput, "s2", Some("USB DAC")), Device(AudioOutput, "s1", Some("TV"))) > 0
  {
    var tv := Device(AudioOutput, "s1", Some("TV"));
    var dac := Device(AudioOutput, "s2", Some("USB DAC"));
    OutputCompareIgnoresUsb(dac, tv);
    assert LabelCompare("USB DAC", "TV") == 1;
  }

  /** With the corrected comparator the same USB output sorts first. */
  lemma OutputUsbFirstCorrected()
    ensures var tv := Device(AudioOutput, "s1", Some("TV"));
            var dac := Device(AudioOutput, "s2", Some("USB DAC"));
            Usb(dac) && !Usb(tv) && DeviceCompare(dac, tv) < 0 && DeviceCompare(tv, dac) > 0
  {
    OutputExampleDevices();
  }

  /** Rank of a device in the comparator's first two rules (smaller sorts first). */
  function Rank(d: Device): (r: nat)
    ensures r < 4
    ensures Usb(d) <==> r < 2
  {
    (if Usb(d) then 0 else 2) + (if IsDefault(d) then 0 else 1)
  }

  /** The comparator is the lexicographic order on (rank, label). */
  lemma DeviceCompareByRank(a: Device, b: Device)
    ensures DeviceCompare(a, b) <= 0 <==>
      Rank(a) < Rank(b) || (Rank(a) == Rank(b) && LabelCompare(LabelOrEmpty(a), LabelOrEmpty(b)) <= 0)
    ensures DeviceCompare(a, b) < 0 <==>
      Rank(a) < Rank(b) || (Rank(a) == Rank(b) && LabelCompare(LabelOrEmpty(a), LabelOrEmpty(b)) < 0)
  {
  }

  // ---------------------------------------------------------------------------
  // Sorting
  // ---------------------------------------------------------------------------

  /** What `Array.prototype.sort` needs of a comparator: antisymmetric sign and transitivity. */
  ghost predicate Consistent(cmp: (Device, Device) -> int) {
    && (forall a, b :: cmp(a, b) < 0 <==> cmp(b, a) > 0)
    && (forall a, b, c :: cmp(a, b) <= 0 && cmp(b, c) <= 0 ==> cmp(a, c) <= 0)
  }

  ghost predicate SortedBy(cmp: (Device, Device) -> int, s: seq<Device>) {
    forall i, j :: 0 <= i < j < |s| ==> cmp(s[i], s[j]) <= 0
  }

  lemma DeviceCompareConsistent()
    ensures Consistent(DeviceCompare)
  {
    forall a, b ensures DeviceCompare(a, b) < 0 <==> DeviceCompare(b, a) > 0 {
      LabelCompareAntisymmetric(LabelOrEmpty(a), LabelOrEmpty(b));
    }
    forall a, b, c | DeviceCompare(a, b) <= 0 && DeviceCompare(b, c) <= 0
      ensures DeviceCompare(a, c) <= 0
    {
      DeviceCompareByRank(a, b);
      DeviceCompareByRank(b, c);
      DeviceCompareByRank(a, c);
      if Rank(a) == Rank(b) == Rank(c) {
        LabelCompareTransitive(LabelOrEmpty(a), LabelOrEmpty(b), LabelOrEmpty(c));
      }
    }
  }

  lemma OutputCompareAsWrittenConsistent()
    ensures Consistent(OutputCompareAsWritten)
  {
    forall a, b ensures OutputCompareAsWritten(a, b) < 0 <==> OutputCompareAsWritten(b, a) > 0 {
      LabelCompareAntisymmetric(LabelOrEmpty(a), LabelOrEmpty(b));
    }
    forall a, b, c | OutputCompareAsWritten(a, b) <= 0 && OutputCompareAsWritten(b, c) <= 0
      ensures OutputCompareAsWritten(a, c) <= 0
    {
      if IsDefault(a) == IsDefault(b) == IsDefault(c) {
        LabelCompareTransitive(LabelOrEmpty(a), LabelOrEmpty(b), LabelOrEmpty(c));
      }
    }
  }

  /** Insert `x` before the first element it does not sort after. */
  function Insert(x: Device, s: seq<Device>, cmp: (Device, Device) -> int): (r: seq<Device>)
    ensures multiset(r) == multiset(s) + multiset{x}
  {
    if s == [] then [x]
    else if cmp(x, s[0]) <= 0 then [x] + s
    else
      assert s == [s[0]] + s[1..];
      [s[0]] + Insert(x, s[1..], cmp)
  }

  /** Putting in front an element that sorts before every element keeps a list sorted. */
  lemma PrependSorted(x: Device, s: seq<Device>, cmp: (Device, Device) -> int)
    requires SortedBy(cmp, s)
    requires forall j :: 0 <= j < |s| ==> cmp(x, s[j]) <= 0
    ensures SortedBy(cmp, [x] + s)
  {
    var r := [x] + s;
    forall i, j | 0 <= i < j < |r| ensures cmp(r[i], r[j]) <= 0 {
      assert r[j] == s[j - 1];
      if i > 0 {
        assert r[i] == s[i - 1];
      }
    }
  }

  /** A bound below `x` and below every element of `s` is below every element of `Insert(x, s, cmp)`. */
  lemma InsertBelow(y: Device, x: Device, s: seq<Device>, cmp: (Device, Device) -> int)
    requires cmp(y, x) <= 0
    requires forall j :: 0 <= j < |s| ==> cmp(y, s[j]) <= 0
    ensures forall j :: 0 <= j < |Insert(x, s, cmp)| ==> cmp(y, Insert(x, s, cmp)[j]) <= 0
  {
    var r := Insert(x, s, cmp);
    forall j | 0 <= j < |r| ensures cmp(y, r[j]) <= 0 {
      assert r[j] in multiset(r);
      if r[j] != x {
        assert r[j] in multiset(s);
        var k :| 0 <= k < |s| && s[k] == r[j];
      }
    }
  }

  lemma {:induction false} InsertSorted(x: Device, s: seq<Device>, cmp: (Device, Device) -> int)
    requires Consistent(cmp) && SortedBy(cmp, s)
    ensures SortedBy(cmp, Insert(x, s, cmp))
  {
    if s == [] {
    } else if cmp(x, s[0]) <= 0 {
      forall j | 0 <= j < |s| ensures cmp(x, s[j]) <= 0 {
        if j > 0 {
          assert cmp(s[0], s[j]) <= 0;
        }
      }
      PrependSorted(x, s, cmp);
    } else {
      assert SortedBy(cmp, s[1..]);
      InsertSorted(x, s[1..], cmp);
      var tail := Insert(x, s[1..], cmp);
      assert cmp(s[0], x) <= 0;
      forall j | 0 <= j < |s[1..]| ensures cmp(s[0], s[1..][j]) <= 0 {
        assert s[1..][j] == s[j + 1];
      }
      InsertBelow(s[0], x, s[1..], cmp);
      PrependSorted(s[0], tail, cmp);
    }
  }

  /**
   * The result of `Array.prototype.sort` with `cmp`: a permutation of `s`
   * sorted by `cmp`. It is an insertion sort: `Insert` places a device before
   * the first one it is not ranked after, so devices that `cmp` ranks equal
   * keep their enumeration order, as in a stable sort.
   */
  function SortDevices(s: seq<Device>, cmp: (Device, Device) -> int): (r: seq<Device>)
    ensures multiset(r) == multiset(s)
  {
    if s == [] then []
    else
      assert s == [s[0]] + s[1..];
      Insert(s[0], SortDevices(s[1..], cmp), cmp)
  }

  lemma {:induction false} SortDevicesSorted(s: seq<Device>, cmp: (Device, Device) -> int)
    requires Consistent(cmp)
    ensures SortedBy(cmp, SortDevices(s, cmp))
  {
    if s != [] {
      SortDevicesSorted(s[1..], cmp);
      InsertSorted(s[0], SortDevices(s[1..], cmp), cmp);
    }
  }

  /**
   * In a list sorted by the input comparator every USB device precedes every
   * non-USB one, among equally USB devices "default" comes first, and devices
   * of equal rank are in label order.
   */
  lemma SortedUsbThenDefaultThenLabel(s: seq<Device>, i: int, j: int)
    requires SortedBy(DeviceCompare, s) && 0 <= i < j < |s|
    ensures Usb(s[j]) ==> Usb(s[i])
    ensures Usb(s[i]) == Usb(s[j]) && IsDefault(s[j]) ==> IsDefault(s[i])
    ensures Rank(s[i]) == Rank(s[j]) ==> LabelCompare(LabelOrEmpty(s[i]), LabelOrEmpty(s[j])) <= 0
  {
    DeviceCompareByRank(s[i], s[j]);
  }

  // ---------------------------------------------------------------------------
  // Filling a picker
  // ---------------------------------------------------------------------------

  /** `devices.filter(d => d.kind === kind)`: every device of the kind, as often as it is listed. */
  function Filter(devices: seq<Device>, kind: DeviceKind): (r: seq<Device>)
    ensures |r| <= |devices|
    ensures forall d :: d in r <==> d in devices && d.kind == kind
    ensures forall d :: multiset(r)[d] == if d.kind == kind then multiset(devices)[d] else 0
  {
    if devices == [] then []
    else
      assert devices == [devices[0]] + devices[1..];
      var rest := Filter(devices[1..], kind);
      if devices[0].kind == kind then [devices[0]] + rest else rest
  }

  function KindOf(dir: Direction): DeviceKind {
    if dir == Inputs then AudioInput else AudioOutput
  }

  function Word(dir: Direction): string {
    if dir == Inputs then "Input" else "Output"
  }

  function Placeholder(dir: Direction): SelectOption {
    if dir == Inputs then SelectOption("", "No input devices found")
    else SelectOption("", "No output devices found")
  }

  const UsbPrefix: string := "🔌 USB: "
  const UsbMarker: string := "🔌 USB:"
  const DefaultPrefix: string := "System Default — "

  /** `input.label && input.label.trim()`: the device has a label that is not blank. */
  predicate HasLabel(d: Device) {
    d.deviceLabel.Some? && d.deviceLabel.value != "" && !TrimIsEmpty(d.deviceLabel.value)
  }

  /** The fallback label of an unlabelled device, `Input n` / `Output n` with `n` the 1-based position. */
  function Fallback(index: nat, dir: Direction): string {
    Word(dir) + " " + NatToString(index + 1)
  }

  /** The label of the option at 0-based `index`: the label when its trimmed text is non-empty. */
  function BaseLabel(d: Device, index: nat, dir: Direction): string {
    if HasLabel(d) then d.deviceLabel.value else Fallback(index, dir)
  }

  /** The prefixes put before a label: `🔌 USB: ` for a USB device, then `System Default` for `default`. */
  function Decorate(base: string, usb: bool, isDefault: bool): string {
    var withUsb := if usb then UsbPrefix + base else base;
    if isDefault then
      "System Default" + (if withUsb != "" then " — " + withUsb else "")
    else withUsb
  }

  /** The option text: the base label, then the USB prefix, then the "System Default" prefix. */
  function OptionText(d: Device, index: nat, dir: Direction): string {
    Decorate(BaseLabel(d, index, dir), Usb(d), IsDefault(d))
  }

  /** One option per device, in list order. */
  function BuildOptions(devices: seq<Device>, dir: Direction): (r: seq<SelectOption>)
    ensures |r| == |devices|
    ensures forall i :: 0 <= i < |r| ==>
      r[i] == SelectOption(devices[i].deviceId, OptionText(devices[i], i, dir))
  {
    seq(|devices|, i requires 0 <= i < |devices| =>
      SelectOption(devices[i].deviceId, OptionText(devices[i], i, dir)))
  }

  /** Some option carries value `v`. */
  predicate HasValue(options: seq<SelectOption>, v: string) {
    exists i :: 0 <= i < |options| && options[i].value == v
  }

  /**
   * The value after refilling: the previous one when it is non-empty and still
   * offered, otherwise the first option (the browser's default selection).
   */
  function RestoreSelection(previous: string, options: seq<SelectOption>): (v: string)
    requires |options| > 0
    ensures HasValue(options, v)
    ensures previous != "" ==> (v == previous <==> HasValue(options, previous))
    ensures v != previous ==> v == options[0].value
    ensures previous == "" ==> v == options[0].value
  {
    if previous != "" && HasValue(options, previous) then previous else options[0].value
  }

  /** The comparator each picker sorts with (the output picker with the corrected one). */
  function Comparator(dir: Direction): (Device, Device) -> int {
    DeviceCompare
  }

  /** The enumeration handler: filter, sort, rebuild the options, restore the selection. */
  function Refresh(all: seq<Device>, dir: Direction, previous: string): (sel: Select)
    ensures |sel.options| > 0 && HasValue(sel.options, sel.value)
    ensures sel.disabled <==> Filter(all, KindOf(dir)) == []
    ensures sel.disabled ==> sel.options == [Placeholder(dir)] && sel.value == ""
    ensures !sel.disabled ==> |sel.options| == |Filter(all, KindOf(dir))|
    ensures !sel.disabled && previous != "" ==> (sel.value == previous <==> HasValue(sel.options, previous))
    ensures !sel.disabled ==>
      exists listed :: (multiset(listed) == multiset(Filter(all, KindOf(dir)))
                        && SortedBy(Comparator(dir), listed) && sel.options == BuildOptions(listed, dir))
    ensures !sel.disabled ==> sel.value == RestoreSelection(previous, sel.options)
  {
    var listed := SortDevices(Filter(all, KindOf(dir)), Comparator(dir));
    if listed == [] then
      assert multiset(Filter(all, KindOf(dir))) == multiset{};
      assert [Placeholder(dir)][0].value == "";
      Select([Placeholder(dir)], true, "")
    else
      assert Filter(all, KindOf(dir)) != [] by {
        assert listed[0] in multiset(Filter(all, KindOf(dir)));
      }
      DeviceCompareConsistent();
      SortDevicesSorted(Filter(all, KindOf(dir)), Comparator(dir));
      var options := BuildOptions(listed, dir);
      assert |listed| == |Filter(all, KindOf(dir))| by {
        assert |multiset(listed)| == |multiset(Filter(all, KindOf(dir)))|;
      }
      Select(options, false, RestoreSelection(previous, options))
  }

  // ---------------------------------------------------------------------------
  // The USB marker in option texts and the counts beside the pickers
  // ---------------------------------------------------------------------------

  lemma {:induction false} IncludesAfterPrefix(p: string, q: string, m: string)
    requires |m| > 0
    requires forall k :: 0 <= k < |p| ==> p[k] != m[0]
    ensures Includes(p + q, m) <==> Includes(q, m)
  {
    var s := p + q;
    if Includes(s, m) {
      var i :| OccursAt(s, m, i);
      assert s[i] == s[i..i + |m|][0] == m[0];
      assert i >= |p|;
      assert s[i..i + |m|] == q[i - |p|..i - |p| + |m|];
      assert OccursAt(q, m, i - |p|);
    }
    if Includes(q, m) {
      var j :| OccursAt(q, m, j);
      assert s[j + |p|..j + |p| + |m|] == q[j..j + |m|];
      assert OccursAt(s, m, j + |p|);
    }
  }

  lemma NoStartCharNoInclude(s: string, m: string)
    requires |m| > 0
    requires forall k :: 0 <= k < |s| ==> s[k] != m[0]
    ensures !Includes(s, m)
  {
    IncludesAfterPrefix(s, "", m);
    assert s + "" == s;
  }

  /** A label that shows the marker is itself detected as USB (it contains "USB"). */
  lemma MarkerInLabelMeansUsb(d: Device)
    requires Includes(LabelOrEmpty(d), UsbMarker)
    ensures Usb(d)
  {
    var l := LabelOrEmpty(d);
    var i :| OccursAt(l, UsbMarker, i);
    assert l[i + 2] == 'U' && l[i + 3] == 'S' && l[i + 4] == 'B' by {
      var w := l[i..i + |UsbMarker|];
      assert w == UsbMarker;
      assert w[2] == 'U' && w[3] == 'S' && w[4] == 'B';
      assert w[2] == l[i + 2] && w[3] == l[i + 3] && w[4] == l[i + 4];
    }
    var low := Lower(l);
    assert low[i + 2..i + 5] == "usb";
    assert OccursAt(low, UsbIndicators[0], i + 2);
  }

  /** `s.endsWith(t)`. */
  predicate EndsWith(s: string, t: string) {
    |t| <= |s| && s[|s| - |t|..] == t
  }

  lemma EndsWithAppended(p: string, q: string)
    ensures EndsWith(p + q, q)
  {
    assert (p + q)[|p + q| - |q|..] == q;
  }

  lemma EndsWithTransitive(s: string, t: string, u: string)
    requires EndsWith(s, t) && EndsWith(t, u)
    ensures EndsWith(s, u)
  {
    assert s[|s| - |u|..] == s[|s| - |t|..][|t| - |u|..];
  }

  /**
   * A non-empty label, decorated: `System Default — ` comes first for the
   * default device, then `🔌 USB: ` for a USB one, and the text ends with the
   * label; it shows the marker exactly when the device is USB or the label
   * itself shows it.
   */
  lemma DecorateParts(base: string, usb: bool, isDefault: bool)
    requires base != ""
    ensures var rest := if usb then UsbPrefix + base else base;
      Decorate(base, usb, isDefault) == if isDefault then DefaultPrefix + rest else rest
    ensures EndsWith(Decorate(base, usb, isDefault), base)
    ensures Includes(Decorate(base, usb, isDefault), UsbMarker) <==> usb || Includes(base, UsbMarker)
  {
    var text := Decorate(base, usb, isDefault);
    var rest := if usb then UsbPrefix + base else base;
    var lead := if isDefault then DefaultPrefix else "";
    assert text == lead + rest by {
      assert "System Default" + " — " == DefaultPrefix;
    }
    assert EndsWith(rest, base) by {
      if usb {
        EndsWithAppended(UsbPrefix, base);
      } else {
        EndsWithAppended("", base);
      }
    }
    EndsWithAppended(lead, rest);
    EndsWithTransitive(text, rest, base);
    IncludesAfterPrefix(lead, rest, UsbMarker);
    if usb {
      assert OccursAt(rest, UsbMarker, 0);
    }
  }

  /** An option text shows the USB marker exactly when its device is detected as USB. */
  lemma OptionTextUsbMarker(d: Device, index: nat, dir: Direction)
    ensures Includes(OptionText(d, index, dir), UsbMarker) <==> Usb(d)
  {
    var base := BaseLabel(d, index, dir);
    DecorateParts(base, Usb(d), IsDefault(d));
    if HasLabel(d) {
      if Includes(base, UsbMarker) {
        MarkerInLabelMeansUsb(d);
      }
    } else {
      FallbackNoMarker(index, dir);
    }
  }

  /** `Input n` / `Output n` does not show the marker. */
  lemma FallbackNoMarker(index: nat, dir: Direction)
    ensures !Includes(Fallback(index, dir), UsbMarker)
  {
    var digits := NatToString(index + 1);
    var text := Word(dir) + " " + digits;
    assert forall k :: 0 <= k < |text| ==> text[k] != UsbMarker[0] by {
      forall k | 0 <= k < |text| ensures text[k] != UsbMarker[0] {
        if k >= |Word(dir)| + 1 {
          assert text[k] == digits[k - |Word(dir)| - 1];
        }
      }
    }
    NoStartCharNoInclude(text, UsbMarker);
  }

  /**
   * The parts of an option text: a device with id `default` gets the
   * `System Default — ` prefix, a USB device the `🔌 USB: ` prefix after it, and
   * the text ends with the device's own label when that is not blank, or else
   * with `Input n` / `Output n`, where the digits denote the 1-based position.
   */
  lemma OptionTextParts(d: Device, index: nat, dir: Direction)
    ensures var base := if HasLabel(d) then d.deviceLabel.value else Fallback(index, dir);
      var rest := if Usb(d) then UsbPrefix + base else base;
      OptionText(d, index, dir) == if IsDefault(d) then DefaultPrefix + rest else rest
    ensures HasLabel(d) ==> EndsWith(OptionText(d, index, dir), d.deviceLabel.value)
    ensures !HasLabel(d) ==> EndsWith(OptionText(d, index, dir), Fallback(index, dir))
    ensures !HasLabel(d) ==>
      (EndsWith(OptionText(d, index, dir), NatToString(index + 1)) && DigitsValue(NatToString(index + 1)) == index + 1)
  {
    var base := BaseLabel(d, index, dir);
    DecorateParts(base, Usb(d), IsDefault(d));
    if !HasLabel(d) {
      NatToStringValue(index + 1);
      EndsWithAppended(Word(dir) + " ", NatToString(index + 1));
      EndsWithTransitive(OptionText(d, index, dir), base, NatToString(index + 1));
    }
  }

  /** Texts that show the marker (the count `updateDeviceCount` displays). */
  function UsbTextCount(options: seq<SelectOption>): nat {
    if options == [] then 0
    else
      var last := options[|options| - 1];
      UsbTextCount(options[..|options| - 1]) + (if Includes(last.text, UsbMarker) then 1 else 0)
  }

  /** Devices the heuristic marks as USB. */
  function UsbDeviceCount(devices: seq<Device>): nat {
    if devices == [] then 0
    else
      var last := devices[|devices| - 1];
      UsbDeviceCount(devices[..|devices| - 1]) + (if Usb(last) then 1 else 0)
  }

  /** Counting over a concatenation adds the counts of its parts. */
  lemma {:induction false} UsbDeviceCountAppend(a: seq<Device>, b: seq<Device>)
    ensures UsbDeviceCount(a + b) == UsbDeviceCount(a) + UsbDeviceCount(b)
  {
    if b == [] {
      assert a + b == a;
    } else {
      var c := a + b;
      assert c[..|c| - 1] == a + b[..|b| - 1];
      assert c[|c| - 1] == b[|b| - 1];
      UsbDeviceCountAppend(a, b[..|b| - 1]);
    }
  }

  /** The USB count does not depend on the order of the devices. */
  lemma {:induction false} UsbDeviceCountPermutation(s: seq<Device>, t: seq<Device>)
    requires multiset(s) == multiset(t)
    ensures UsbDeviceCount(s) == UsbDeviceCount(t)
    decreases |s|
  {
    if s == [] {
      assert |t| == |multiset(t)| == 0;
    } else {
      var x := s[|s| - 1];
      var rest := s[..|s| - 1];
      assert s == rest + [x];
      assert x in multiset(t);
      var k :| 0 <= k < |t| && t[k] == x;
      var before, after := t[..k], t[k + 1..];
      assert t == before + [x] + after;
      var others := before + after;
      assert multiset(rest) == multiset(others) by {
        assert multiset(s) == multiset(rest) + multiset{x};
        assert multiset(t) == multiset(before) + multiset{x} + multiset(after);
        assert multiset(others) == multiset(before) + multiset(after);
        assert multiset(rest) == multiset(s) - multiset{x};
        assert multiset(others) == multiset(t) - multiset{x};
      }
      UsbDeviceCountPermutation(rest, others);
      UsbDeviceCountAppend(before + [x], after);
      UsbDeviceCountAppend(before, [x]);
      UsbDeviceCountAppend(before, after);
      assert [x][..0] == [];
    }
  }

  lemma {:induction false} UsbTextCountPrefix(devices: seq<Device>, dir: Direction, k: nat)
    requires k <= |devices|
    ensures UsbTextCount(BuildOptions(devices, dir)[..k]) == UsbDeviceCount(devices[..k])
  {
    if k > 0 {
      UsbTextCountPrefix(devices, dir, k - 1);
      var options := BuildOptions(devices, dir);
      assert options[..k][..k - 1] == options[..k - 1];
      assert devices[..k][..k - 1] == devices[..k - 1];
      OptionTextUsbMarker(devices[k - 1], k - 1, dir);
    }
  }

  /** Counting marked texts counts exactly the devices detected as USB. */
  lemma UsbTextCountMatchesDevices(devices: seq<Device>, dir: Direction)
    ensures UsbTextCount(BuildOptions(devices, dir)) == UsbDeviceCount(devices)
  {
    UsbTextCountPrefix(devices, dir, |devices|);
    assert BuildOptions(devices, dir)[..|devices|] == BuildOptions(devices, dir);
    assert devices[..|devices|] == devices;
  }

  /** In a refilled picker every option showing the marker precedes every option that does not. */
  lemma RefreshedUsbOptionsFirst(all: seq<Device>, dir: Direction, previous: string, i: int, j: int)
    requires var sel := Refresh(all, dir, previous); 0 <= i < j < |sel.options|
    ensures var sel := Refresh(all, dir, previous);
      Includes(sel.options[j].text, UsbMarker) ==> Includes(sel.options[i].text, UsbMarker)
  {
    var sel := Refresh(all, dir, previous);
    var listed := SortDevices(Filter(all, KindOf(dir)), DeviceCompare);
    if listed == [] {
      assert false;
    } else {
      DeviceCompareConsistent();
      SortDevicesSorted(Filter(all, KindOf(dir)), DeviceCompare);
      SortedUsbThenDefaultThenLabel(listed, i, j);
      OptionTextUsbMarker(listed[i], i, dir);
      OptionTextUsbMarker(listed[j], j, dir);
    }
  }

  /** The figures `updateDeviceCount` shows. */
  datatype DeviceCount = DeviceCount(inputs: nat, usbInputs: nat, outputs: nat, usbOutputs: nat)

  /** The counting loop over one picker's options. */
  method CountOptions(options: seq<SelectOption>) returns (total: nat, usb: nat)
    ensures total == |options|
    ensures usb == UsbTextCount(options)
    ensures usb <= total
  {
    total := |options|;
    usb := 0;
    var i := 0;
    while i < |options|
      invariant 0 <= i <= |options|
      invariant usb == UsbTextCount(options[..i])
      invariant usb <= i
    {
      assert options[..i + 1][..i] == options[..i];
      if Includes(options[i].text, UsbMarker) {
        usb := usb + 1;
      }
      i := i + 1;
    }
    assert options[..i] == options;
  }

  /** Both pickers' counts; an absent output picker counts as empty. */
  method UpdateDeviceCount(inputOptions: seq<SelectOption>, outputOptions: Option<seq<SelectOption>>)
    returns (c: DeviceCount)
    ensures c.inputs == |inputOptions| && c.usbInputs == UsbTextCount(inputOptions)
    ensures outputOptions.None? ==> c.outputs == 0 && c.usbOutputs == 0
    ensures outputOptions.Some? ==>
      c.outputs == |outputOptions.value| && c.usbOutputs == UsbTextCount(outputOptions.value)
  {
    var inputs, usbInputs := CountOptions(inputOptions);
    var outputs, usbOutputs := 0, 0;
    if outputOptions.Some? {
      outputs, usbOutputs := CountOptions(outputOptions.value);
    }
    c := DeviceCount(inputs, usbInputs, outputs, usbOutputs);
  }

  /** The placeholder text does not show the USB marker. */
  lemma PlaceholderNoMarker(dir: Direction)
    ensures !Includes(Placeholder(dir).text, UsbMarker)
  {
    NoStartCharNoInclude(Placeholder(dir).text, UsbMarker);
  }

  /** With no device of a kind, the placeholder option is what gets counted. */
  lemma PlaceholderCounted(all: seq<Device>, dir: Direction, previous: string)
    requires Filter(all, KindOf(dir)) == []
    ensures |Refresh(all, dir, previous).options| == 1
    ensures UsbTextCount(Refresh(all, dir, previous).options) == 0
  {
    var options := Refresh(all, dir, previous).options;
    assert options == [Placeholder(dir)];
    assert options[..0] == [];
    PlaceholderNoMarker(dir);
  }

  /** A refilled picker's USB count equals the number of USB devices of that kind. */
  lemma RefreshUsbCount(all: seq<Device>, dir: Direction, previous: string)
    requires Filter(all, KindOf(dir)) != []
    ensures UsbTextCount(Refresh(all, dir, previous).options) == UsbDeviceCount(Filter(all, KindOf(dir)))
  {
    var listed := SortDevices(Filter(all, KindOf(dir)), DeviceCompare);
    assert listed != [] by {
      assert Filter(all, KindOf(dir))[0] in multiset(listed);
    }
    UsbTextCountMatchesDevices(listed, dir);
    UsbDeviceCountPermutation(listed, Filter(all, KindOf(dir)));
  }
}
