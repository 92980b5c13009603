/**
 * The Remote Switch Bricklet 2.0 plugin: the five house-code and five
 * receiver-code check boxes that mirror a spin box bit by bit, the four
 * widget groups of which exactly one is shown, the "switch all" override of
 * address and unit, and the requests the plugin sends to the bricklet.
 *
 * Widgets are reduced to the state the plugin reads or writes: a check box
 * is a `bool`, a spin box an `int`, visibility a map entry. The values of
 * the form's other inputs (repeats, address, unit, dim value, the type
 * combo's text, the system-code combo's text, the device code) are passed
 * in as a `Controls` record. Requests sent to the bricklet are appended to
 * `sent`; the callbacks registered with it are the map `callbacks`.
 */
module RemoteSwitchV2 {
  import opened Wrappers

  // ---------------------------------------------------------------------
  // The five-bit check-box codec

  function Pow2(i: nat): (p: nat)
    ensures p >= 1
  {
    if i == 0 then 1 else 2 * Pow2(i - 1)
  }

  /**
   * Whether `v & (1 << i)` is nonzero. Dafny's `/` and `%` round towards
   * negative infinity for a positive divisor, as Python's do, so this is
   * also the bit of a negative value in two's complement.
   */
  predicate Bit(v: int, i: nat)
  {
    (v / Pow2(i)) % 2 == 1
  }

  /** `code | (1 << i)`. */
  function SetBit(code: int, i: nat): int
  {
    if Bit(code, i) then code else code + Pow2(i)
  }

  /** The code accumulated from the first `n` check boxes. */
  function Code(b: seq<bool>, n: nat): int
    requires n <= |b|
  {
    if n == 0 then 0
    else if b[n - 1] then SetBit(Code(b, n - 1), n - 1)
    else Code(b, n - 1)
  }

  function Weight(x: bool, w: int): int { if x then w else 0 }

  lemma {:induction false} CodeStep(b: seq<bool>, n: nat)
    requires n <= |b| && n <= 5
    ensures 0 <= Code(b, n) < Pow2(n)
    ensures n > 0 ==> Code(b, n) == Code(b, n - 1) + Weight(b[n - 1], Pow2(n - 1))
  {
    if n > 0 {
      CodeStep(b, n - 1);
      assert Pow2(1) == 2 && Pow2(2) == 4 && Pow2(3) == 8 && Pow2(4) == 16;
    }
  }

  /** The check-box states that show spin-box value `v`. */
  function Decode(v: int): (b: seq<bool>)
    ensures |b| == 5
  {
    [Bit(v, 0), Bit(v, 1), Bit(v, 2), Bit(v, 3), Bit(v, 4)]
  }

  /** The spin-box value the five check boxes `b` stand for. */
  function Encode(b: seq<bool>): (r: int)
    requires |b| == 5
    ensures 0 <= r < 32
  {
    CodeStep(b, 5);
    assert Pow2(5) == 32;
    Code(b, 5)
  }

  /** Euclidean remainders are unique. */
  lemma ModUnique(v: int, d: int, h: int, rem: int)
    requires d > 0 && v == d * h + rem && 0 <= rem < d
    ensures v % d == rem
  {
    var q := v / d;
    assert v == d * q + v % d;
    assert d * (h - q) == v % d - rem;
    if h > q {
      MulAtLeast(d, h - q);
    } else if h < q {
      MulAtLeast(d, q - h);
    }
  }

  lemma {:induction false} MulAtLeast(d: int, k: int)
    requires d > 0 && k >= 1
    ensures d * k >= d
    decreases k
  {
    if k > 1 {
      MulAtLeast(d, k - 1);
      assert d * k == d * (k - 1) + d;
    }
  }

  lemma ModStep(v: int, n: nat)
    ensures v % Pow2(n + 1) == v % Pow2(n) + Weight(Bit(v, n), Pow2(n))
  {
    var p := Pow2(n);
    var q := v / p;
    assert v == p * q + v % p;
    assert q == 2 * (q / 2) + q % 2;
    assert v == (2 * p) * (q / 2) + (p * (q % 2) + v % p);
    ModUnique(v, 2 * p, q / 2, p * (q % 2) + v % p);
  }

  lemma {:induction false} CodeOfBits(v: int, n: nat)
    requires n <= 5
    ensures Code(Decode(v), n) == v % Pow2(n)
  {
    if n > 0 {
      CodeOfBits(v, n - 1);
      CodeStep(Decode(v), n);
      ModStep(v, n - 1);
    }
  }

  /** Reading the boxes back after setting them from `v` gives `v & 31`. */
  lemma EncodeDecode(v: int)
    ensures Encode(Decode(v)) == v % 32
  {
    CodeOfBits(v, 5);
    assert Pow2(5) == 32;
  }

  lemma DigitAt(e: int, p: nat, q: int, w: int)
    requires w == 0 || w == 1
    requires e / Pow2(p) == 2 * q + w
    ensures Bit(e, p) == (w == 1)
  {
  }

  lemma EncodeSum(b: seq<bool>)
    requires |b| == 5
    ensures Encode(b) == Weight(b[0], 1) + 2 * Weight(b[1], 1) + 4 * Weight(b[2], 1) + 8 * Weight(b[3], 1) + 16 * Weight(b[4], 1)
  {
    CodeStep(b, 5);
    CodeStep(b, 4);
    CodeStep(b, 3);
    CodeStep(b, 2);
    CodeStep(b, 1);
    assert Pow2(1) == 2 && Pow2(2) == 4 && Pow2(3) == 8 && Pow2(4) == 16;
  }

  lemma DecodeSum(w0: int, w1: int, w2: int, w3: int, w4: int)
    requires 0 <= w0 <= 1 && 0 <= w1 <= 1 && 0 <= w2 <= 1 && 0 <= w3 <= 1 && 0 <= w4 <= 1
    ensures Decode(w0 + 2 * w1 + 4 * w2 + 8 * w3 + 16 * w4) == [w0 == 1, w1 == 1, w2 == 1, w3 == 1, w4 == 1]
  {
    var e := w0 + 2 * w1 + 4 * w2 + 8 * w3 + 16 * w4;
    assert Pow2(1) == 2 && Pow2(2) == 4 && Pow2(3) == 8 && Pow2(4) == 16;
    DigitAt(e, 0, w1 + 2 * w2 + 4 * w3 + 8 * w4, w0);
    DigitAt(e, 1, w2 + 2 * w3 + 4 * w4, w1);
    DigitAt(e, 2, w3 + 2 * w4, w2);
    DigitAt(e, 3, w4, w3);
    DigitAt(e, 4, 0, w4);
  }

  /** Setting the boxes from the value the boxes encode leaves them as they were. */
  lemma DecodeEncode(b: seq<bool>)
    requires |b| == 5
    ensures Decode(Encode(b)) == b
  {
    EncodeSum(b);
    DecodeSum(Weight(b[0], 1), Weight(b[1], 1), Weight(b[2], 1), Weight(b[3], 1), Weight(b[4], 1));
  }

  lemma DecodeZero(v: int)
    requires v == 0
    ensures Decode(v) == [false, false, false, false, false]
  {
  }

  /** Checks box `i` iff bit `i` of `state` is set, for the five boxes. */
  method CheckBoxes(boxes: array<bool>, state: int)
    requires boxes.Length == 5
    modifies boxes
    ensures boxes[..] == Decode(state)
  {
    var i := 0;
    while i < 5
      invariant 0 <= i <= 5
      invariant forall k :: 0 <= k < i ==> boxes[k] == Bit(state, k)
    {
      if Bit(state, i) {
        boxes[i] := true;
      } else {
        boxes[i] := false;
      }
      i := i + 1;
    }
  }

  /** ORs `1 << i` into the code for every checked box `i`. */
  method CodeOfBoxes(boxes: array<bool>) returns (code: int)
    requires boxes.Length == 5
    ensures code == Encode(boxes[..])
  {
    code := 0;
    var i := 0;
    while i < 5
      invariant 0 <= i <= 5
      invariant code == Code(boxes[..], i)
    {
      if boxes[i] {
        code := SetBit(code, i);
      }
      i := i + 1;
    }
  }

  // ---------------------------------------------------------------------
  // Widget groups of the switch-type combo

  datatype Widget =
    | LabelHouseCode | HouseCheck(bit: nat) | SpinboxHouse
    | LabelReceiverCode | ReceiverCheck(bit: nat) | SpinboxReceiver
    | ButtonSwitchOn | ButtonSwitchOff
    | LabelAddress | SpinboxAddress | LabelUnit | SpinboxUnit | CheckboxSwitchAll
    | LabelDim | SpinboxDimValue | SliderDimValue | ButtonDim
    | LabelSystemCode | ComboSystemCode | LabelDeviceCode | SpinboxDeviceCode

  const TYPE_A_WIDGETS: seq<Widget> :=
    [LabelHouseCode, HouseCheck(0), HouseCheck(1), HouseCheck(2), HouseCheck(3), HouseCheck(4), SpinboxHouse,
     LabelReceiverCode, ReceiverCheck(0), ReceiverCheck(1), ReceiverCheck(2), ReceiverCheck(3), ReceiverCheck(4),
     SpinboxReceiver, ButtonSwitchOn, ButtonSwitchOff]

  const TYPE_B_WIDGETS: seq<Widget> :=
    [LabelAddress, SpinboxAddress, LabelUnit, SpinboxUnit, CheckboxSwitchAll, ButtonSwitchOn, ButtonSwitchOff]

  const TYPE_B_DIM_WIDGETS: seq<Widget> :=
    [LabelAddress, SpinboxAddress, LabelUnit, SpinboxUnit, CheckboxSwitchAll, LabelDim, SpinboxDimValue,
     SliderDimValue, ButtonDim]

  const TYPE_C_WIDGETS: seq<Widget> :=
    [LabelSystemCode, ComboSystemCode, LabelDeviceCode, SpinboxDeviceCode, ButtonSwitchOn, ButtonSwitchOff]

  /** One group per entry of the type combo, in combo order. */
  const TYPE_WIDGETS: seq<seq<Widget>> := [TYPE_A_WIDGETS, TYPE_B_WIDGETS, TYPE_B_DIM_WIDGETS, TYPE_C_WIDGETS]

  /** The group `type_widgets[index]` selects, with Python's negative indices. */
  function PyIndex(index: int): (g: nat)
    requires -|TYPE_WIDGETS| <= index < |TYPE_WIDGETS|
    ensures g < |TYPE_WIDGETS|
    ensures index >= 0 ==> g == index
  {
    if index < 0 then index + |TYPE_WIDGETS| else index
  }

  predicate InAnyGroup(w: Widget)
  {
    exists g :: 0 <= g < |TYPE_WIDGETS| && w in TYPE_WIDGETS[g]
  }

  /** `m` after `setVisible(v)` on each widget of `ws`, in order. */
  function SetAll(m: map<Widget, bool>, ws: seq<Widget>, v: bool): map<Widget, bool>
  {
    if |ws| == 0 then m else SetAll(m, ws[..|ws| - 1], v)[ws[|ws| - 1] := v]
  }

  /** `m` after hiding every group among the first `n` whose number is not `index`. */
  function HideGroups(m: map<Widget, bool>, n: nat, index: int): map<Widget, bool>
    requires n <= |TYPE_WIDGETS|
  {
    if n == 0 then m
    else if n - 1 != index then SetAll(HideGroups(m, n - 1, index), TYPE_WIDGETS[n - 1], false)
    else HideGroups(m, n - 1, index)
  }

  /** Visibility after `type_index_changed(index)`: every widget of the selected group is shown. */
  function AfterTypeIndex(m: map<Widget, bool>, index: int): (r: map<Widget, bool>)
    requires -|TYPE_WIDGETS| <= index < |TYPE_WIDGETS|
    ensures forall w :: w in TYPE_WIDGETS[PyIndex(index)] ==> w in r && r[w]
  {
    SetAllShows(HideGroups(m, |TYPE_WIDGETS|, index), TYPE_WIDGETS[PyIndex(index)], true);
    SetAll(HideGroups(m, |TYPE_WIDGETS|, index), TYPE_WIDGETS[PyIndex(index)], true)
  }

  predicate HiddenBy(w: Widget, n: nat, index: int)
    requires n <= |TYPE_WIDGETS|
  {
    exists g :: 0 <= g < n && g != index && w in TYPE_WIDGETS[g]
  }

  lemma {:induction false} SetAllAt(m: map<Widget, bool>, ws: seq<Widget>, v: bool, w: Widget)
    ensures w in SetAll(m, ws, v) <==> w in m || w in ws
    ensures w in ws ==> SetAll(m, ws, v)[w] == v
    ensures w !in ws && w in m ==> SetAll(m, ws, v)[w] == m[w]
  {
    if |ws| > 0 {
      var init := ws[..|ws| - 1];
      SetAllAt(m, init, v, w);
      assert ws == init + [ws[|ws| - 1]];
    }
  }

  lemma SetAllShows(m: map<Widget, bool>, ws: seq<Widget>, v: bool)
    ensures forall w :: w in ws ==> w in SetAll(m, ws, v) && SetAll(m, ws, v)[w] == v
  {
    forall w | w in ws
      ensures w in SetAll(m, ws, v) && SetAll(m, ws, v)[w] == v
    {
      SetAllAt(m, ws, v, w);
    }
  }

  lemma {:induction false} HideGroupsAt(m: map<Widget, bool>, n: nat, index: int, w: Widget)
    requires n <= |TYPE_WIDGETS|
    ensures w in HideGroups(m, n, index) <==> w in m || HiddenBy(w, n, index)
    ensures HiddenBy(w, n, index) ==> !HideGroups(m, n, index)[w]
    ensures !HiddenBy(w, n, index) && w in m ==> HideGroups(m, n, index)[w] == m[w]
  {
    if n > 0 {
      var prev := HideGroups(m, n - 1, index);
      HideGroupsAt(m, n - 1, index, w);
      HiddenByStep(w, n, index);
      if n - 1 != index {
        SetAllAt(prev, TYPE_WIDGETS[n - 1], false, w);
      }
    }
  }

  lemma HiddenByStep(w: Widget, n: nat, index: int)
    requires 0 < n <= |TYPE_WIDGETS|
    ensures HiddenBy(w, n, index) <==> HiddenBy(w, n - 1, index) || (n - 1 != index && w in TYPE_WIDGETS[n - 1])
  {
    if HiddenBy(w, n, index) && !HiddenBy(w, n - 1, index) {
      var g :| 0 <= g < n && g != index && w in TYPE_WIDGETS[g];
      assert g == n - 1;
    }
  }

  /**
   * After `type_index_changed(index)` a widget of any group is visible iff
   * it belongs to the selected group, even when another group shares it;
   * widgets outside every group keep their entry.
   */
  lemma TypeIndexShowsOnlyGroup(m: map<Widget, bool>, index: int, w: Widget)
    requires -|TYPE_WIDGETS| <= index < |TYPE_WIDGETS|
    ensures InAnyGroup(w) ==> w in AfterTypeIndex(m, index) && AfterTypeIndex(m, index)[w] == (w in TYPE_WIDGETS[PyIndex(index)])
    ensures !InAnyGroup(w) ==> (w in AfterTypeIndex(m, index) <==> w in m)
    ensures !InAnyGroup(w) && w in m ==> AfterTypeIndex(m, index)[w] == m[w]
  {
    var shown := TYPE_WIDGETS[PyIndex(index)];
    HideGroupsAt(m, |TYPE_WIDGETS|, index, w);
    SetAllAt(HideGroups(m, |TYPE_WIDGETS|, index), shown, true, w);
    if InAnyGroup(w) && w !in shown {
      var g :| 0 <= g < |TYPE_WIDGETS| && w in TYPE_WIDGETS[g];
      assert g != index;
      assert HiddenBy(w, |TYPE_WIDGETS|, index);
    }
    if !InAnyGroup(w) {
      assert w !in shown;
      assert !HiddenBy(w, |TYPE_WIDGETS|, index);
    }
  }

  /** Calls `setVisible(v)` on each widget of `ws`, in order. */
  method SetEach(m: map<Widget, bool>, ws: seq<Widget>, v: bool) returns (r: map<Widget, bool>)
    ensures r == SetAll(m, ws, v)
  {
    r := m;
    var j := 0;
    while j < |ws|
      invariant 0 <= j <= |ws|
      invariant r == SetAll(m, ws[..j], v)
    {
      assert ws[..j + 1][..j] == ws[..j];
      r := r[ws[j] := v];
      j := j + 1;
    }
    assert ws[..|ws|] == ws;
  }

  /** The loops of `type_index_changed(index)` over the visibility map `m`. */
  method SetVisibility(m: map<Widget, bool>, index: int) returns (r: map<Widget, bool>)
    requires -|TYPE_WIDGETS| <= index < |TYPE_WIDGETS|
    ensures r == AfterTypeIndex(m, index)
  {
    r := m;
    var i := 0;
    while i < |TYPE_WIDGETS|
      invariant 0 <= i <= |TYPE_WIDGETS|
      invariant r == HideGroups(m, i, index)
    {
      if i != index {
        r := SetEach(r, TYPE_WIDGETS[i], false);
      }
      i := i + 1;
    }
    r := SetEach(r, TYPE_WIDGETS[PyIndex(index)], true);
  }

  // ---------------------------------------------------------------------
  // Requests and callbacks

  datatype RemoteType = RemoteTypeA | RemoteTypeB | RemoteTypeC

  datatype Command =
    | SetRepeats(repeats: int)
    | SwitchSocketA(houseCode: int, receiverCode: int, switchTo: int)
    | SwitchSocketB(address: int, unit: int, switchTo: int)
    | DimSocketB(dimAddress: int, dimUnit: int, dimValue: int)
    | SwitchSocketC(systemCode: char, deviceCode: int, switchTo: int)
    | SetRemoteConfiguration(remoteType: RemoteType, minimumRepeats: int, callbackEnabled: bool)

  datatype CallbackId = SwitchingDone | RemoteStatusA | RemoteStatusB | RemoteStatusC

  /** What a registered callback invokes: the switching-done signal or a status formatter. */
  datatype Handler = SwitchingDoneSignal | StatusA | StatusB | StatusC

  /** The values the plugin reads from the form's other widgets. */
  datatype Controls = Controls(
    repeats: int, address: int, unit: int, dimValue: int,
    typeText: string, systemCodeText: string, deviceCode: int)

  /** The remote type `remote_type_changed(index)` configures, if any. */
  function RemoteTypeOf(index: int): (t: Option<RemoteType>)
    ensures t.Some? <==> 0 <= index <= 2
  {
    if index + 1 == 1 then Some(RemoteTypeA)
    else if index + 1 == 2 then Some(RemoteTypeB)
    else if index + 1 == 3 then Some(RemoteTypeC)
    else None
  }

  function StatusCallback(t: RemoteType): CallbackId
  {
    match t
    case RemoteTypeA => RemoteStatusA
    case RemoteTypeB => RemoteStatusB
    case RemoteTypeC => RemoteStatusC
  }

  function StatusHandler(t: RemoteType): Handler
  {
    match t
    case RemoteTypeA => StatusA
    case RemoteTypeB => StatusB
    case RemoteTypeC => StatusC
  }

  /** Distinct combo entries configure distinct remote types, each with its own status callback. */
  lemma RemoteTypesDistinct(i: int, j: int)
    requires 0 <= i <= 2 && 0 <= j <= 2 && i != j
    ensures RemoteTypeOf(i) != RemoteTypeOf(j)
    ensures StatusCallback(RemoteTypeOf(i).value) != StatusCallback(RemoteTypeOf(j).value)
    ensures StatusHandler(RemoteTypeOf(i).value) != StatusHandler(RemoteTypeOf(j).value)
  {
  }

  function SwitchTarget(c: Command): Option<int>
  {
    match c
    case SwitchSocketA(_, _, s) => Some(s)
    case SwitchSocketB(_, _, s) => Some(s)
    case SwitchSocketC(_, _, s) => Some(s)
    case _ => None
  }

  /** Address and unit of a type-B request: 0 and 255 ("all") when switch-all is checked. */
  function AddressUnit(ui: Controls, switchAll: bool): (int, int)
  {
    if switchAll then (0, 255) else (ui.address, ui.unit)
  }

  /**
   * The requests `button_clicked(switchTo)` sends. An empty system-code text
   * makes `currentText()[0]` raise after the repeats were sent.
   */
  function ClickCommands(ui: Controls, houseCode: int, receiverCode: int, switchAll: bool, switchTo: int): (r: seq<Command>)
    ensures 1 <= |r| <= 2 && r[0] == SetRepeats(ui.repeats)
    ensures |r| == 2 <==>
      ui.typeText == "A Switch" || ui.typeText == "B Switch" || (ui.typeText == "C Switch" && |ui.systemCodeText| > 0)
    ensures |r| == 2 ==> SwitchTarget(r[1]) == Some(switchTo)
  {
    [SetRepeats(ui.repeats)] +
    if ui.typeText == "A Switch" then [SwitchSocketA(houseCode, receiverCode, switchTo)]
    else if ui.typeText == "B Switch" then
      var (address, unit) := AddressUnit(ui, switchAll);
      [SwitchSocketB(address, unit, switchTo)]
    else if ui.typeText == "C Switch" then
      if |ui.systemCodeText| == 0 then [] else [SwitchSocketC(ui.systemCodeText[0], ui.deviceCode, switchTo)]
    else []
  }

  /** The requests `dim_clicked` sends when the type combo is at `typeIndex`. */
  function DimCommands(ui: Controls, typeIndex: int, switchAll: bool): (r: seq<Command>)
    ensures 1 <= |r| <= 2 && r[0] == SetRepeats(ui.repeats)
    ensures |r| == 2 <==> typeIndex == 2
    ensures |r| == 2 ==> r[1].DimSocketB? && r[1].dimValue == ui.dimValue
  {
    [SetRepeats(ui.repeats)] +
    if typeIndex == 2 then
      var (address, unit) := AddressUnit(ui, switchAll);
      [DimSocketB(address, unit, ui.dimValue)]
    else []
  }

  /** With switch-all checked, a type-B switch addresses every socket whatever address and unit say. */
  lemma SwitchAllClickBroadcasts(ui: Controls, houseCode: int, receiverCode: int, switchTo: int)
    requires ui.typeText == "B Switch"
    ensures ClickCommands(ui, houseCode, receiverCode, true, switchTo) == [SetRepeats(ui.repeats), SwitchSocketB(0, 255, switchTo)]
    ensures ClickCommands(ui, houseCode, receiverCode, false, switchTo) == [SetRepeats(ui.repeats), SwitchSocketB(ui.address, ui.unit, switchTo)]
  {
  }

  /** With switch-all checked, dimming addresses every socket whatever address and unit say. */
  lemma SwitchAllDimBroadcasts(ui: Controls)
    ensures DimCommands(ui, 2, true) == [SetRepeats(ui.repeats), DimSocketB(0, 255, ui.dimValue)]
    ensures DimCommands(ui, 2, false) == [SetRepeats(ui.repeats), DimSocketB(ui.address, ui.unit, ui.dimValue)]
  {
  }

  /** A type-A switch sends the house and receiver codes the check boxes show. */
  lemma TypeAClickSendsBoxCodes(ui: Controls, houseBoxes: seq<bool>, receiverBoxes: seq<bool>, switchAll: bool, switchTo: int)
    requires ui.typeText == "A Switch" && |houseBoxes| == 5 && |receiverBoxes| == 5
    ensures var r := ClickCommands(ui, Encode(houseBoxes), Encode(receiverBoxes), switchAll, switchTo);
      r[1] == SwitchSocketA(Encode(houseBoxes), Encode(receiverBoxes), switchTo) &&
      Decode(r[1].houseCode) == houseBoxes && Decode(r[1].receiverCode) == receiverBoxes
  {
    DecodeEncode(houseBoxes);
    DecodeEncode(receiverBoxes);
  }

  // ---------------------------------------------------------------------
  // The plugin

  class RemoteSwitch {
    const houseChecks: array<bool>
    const receiverChecks: array<bool>
    var houseCode: int
    var receiverCode: int
    var switchAll: bool
    var addressEnabled: bool
    var unitEnabled: bool
    var typeIndex: int
    var visible: map<Widget, bool>
    var switchButtonsEnabled: bool
    var switchOnText: string
    var switchOffText: string
    var dimButtonEnabled: bool
    var dimText: string
    var sent: seq<Command>
    var callbacks: map<CallbackId, Handler>

    /** The boxes show the bits of their spin box. */
    ghost predicate CodesValid()
      reads this, houseChecks, receiverChecks
    {
      houseChecks.Length == 5 && receiverChecks.Length == 5 && houseChecks != receiverChecks &&
      houseChecks[..] == Decode(houseCode) && receiverChecks[..] == Decode(receiverCode)
    }

    /** Exactly the selected type's group is shown. */
    ghost predicate ViewValid()
      reads this`typeIndex, this`visible, this`switchAll, this`addressEnabled, this`unitEnabled
    {
      -|TYPE_WIDGETS| <= typeIndex < |TYPE_WIDGETS| &&
      (forall w :: InAnyGroup(w) ==> w in visible && visible[w] == (w in TYPE_WIDGETS[PyIndex(typeIndex)])) &&
      addressEnabled == !switchAll && unitEnabled == !switchAll
    }

    ghost predicate Valid()
      reads this, houseChecks, receiverChecks
    {
      CodesValid() && ViewValid()
    }

    constructor (minimumRepeats: int)
      ensures Valid() && fresh(houseChecks) && fresh(receiverChecks)
      ensures houseCode == 0 && receiverCode == 0 && !switchAll
      ensures typeIndex == 0 && visible == AfterTypeIndex(map[], typeIndex)
      ensures sent == [SetRemoteConfiguration(RemoteTypeA, minimumRepeats, true)]
      ensures callbacks == map[SwitchingDone := SwitchingDoneSignal, RemoteStatusA := StatusA]
      ensures switchButtonsEnabled && dimButtonEnabled
    {
      houseChecks := new bool[5] [false, false, false, false, false];
      receiverChecks := new bool[5] [false, false, false, false, false];
      houseCode, receiverCode := 0, 0;
      switchAll, addressEnabled, unitEnabled := false, true, true;
      typeIndex, visible := 0, map[];
      switchButtonsEnabled, switchOnText, switchOffText := true, "Switch On", "Switch Off";
      dimButtonEnabled, dimText := true, "Dim";
      sent := [];
      callbacks := map[SwitchingDone := SwitchingDoneSignal];
      new;
      TypeIndexChanged(0);
      RemoteTypeChanged(0, minimumRepeats);
      DecodeZero(houseCode);
    }

    /** `type_index_changed(index)`: hide every other group, then show the selected one. */
    method TypeIndexChanged(index: int)
      requires -|TYPE_WIDGETS| <= index < |TYPE_WIDGETS|
      requires addressEnabled == !switchAll && unitEnabled == !switchAll
      modifies this`visible, this`typeIndex
      ensures visible == AfterTypeIndex(old(visible), index) && typeIndex == index
      ensures ViewValid()
    {
      var m := visible;
      visible := SetVisibility(m, index);
      typeIndex := index;
      forall w | InAnyGroup(w)
        ensures w in visible && visible[w] == (w in TYPE_WIDGETS[PyIndex(typeIndex)])
      {
        TypeIndexShowsOnlyGroup(m, index, w);
      }
    }

    /** `house_value_changed(state)`: the house spin box now holds `state`; check the boxes of its bits. */
    method HouseValueChanged(state: int)
      requires Valid()
      modifies this`houseCode, houseChecks
      ensures Valid() && houseCode == state && houseChecks[..] == Decode(state)
    {
      houseCode := state;
      CheckBoxes(houseChecks, state);
    }

    /** `receiver_value_changed(state)`, the receiver twin of `HouseValueChanged`. */
    method ReceiverValueChanged(state: int)
      requires Valid()
      modifies this`receiverCode, receiverChecks
      ensures Valid() && receiverCode == state && receiverChecks[..] == Decode(state)
    {
      receiverCode := state;
      CheckBoxes(receiverChecks, state);
    }

    /** House box `i` was toggled to `checked`; `h_check_state_changed` recomputes the code. */
    method HCheckStateChanged(i: nat, checked: bool)
      requires Valid() && i < 5
      modifies this`houseCode, houseChecks
      ensures Valid()
      ensures houseChecks[..] == old(houseChecks[..])[i := checked]
      ensures houseCode == Encode(houseChecks[..])
    {
      houseChecks[i] := checked;
      var code := CodeOfBoxes(houseChecks);
      houseCode := code;
      DecodeEncode(houseChecks[..]);
    }

    /** Receiver box `i` was toggled to `checked`; `r_check_state_changed` recomputes the code. */
    method RCheckStateChanged(i: nat, checked: bool)
      requires Valid() && i < 5
      modifies this`receiverCode, receiverChecks
      ensures Valid()
      ensures receiverChecks[..] == old(receiverChecks[..])[i := checked]
      ensures receiverCode == Encode(receiverChecks[..])
    {
      receiverChecks[i] := checked;
      var code := CodeOfBoxes(receiverChecks);
      receiverCode := code;
      DecodeEncode(receiverChecks[..]);
    }

    /** The switch-all box was set to `checked`; address and unit are editable iff it is not. */
    method SwitchAllStateChanged(checked: bool)
      requires Valid()
      modifies this`switchAll, this`addressEnabled, this`unitEnabled
      ensures Valid() && switchAll == checked && addressEnabled == !checked && unitEnabled == !checked
    {
      switchAll := checked;
      if switchAll {
        addressEnabled, unitEnabled := false, false;
      } else {
        addressEnabled, unitEnabled := true, true;
      }
    }

    /** `button_clicked(switchTo)`: lock both switch buttons and send the switch request. */
    method ButtonClicked(switchTo: int, ui: Controls)
      requires Valid()
      modifies this`switchButtonsEnabled, this`switchOnText, this`switchOffText, this`sent
      ensures Valid() && !switchButtonsEnabled
      ensures switchOnText == "Switching..." && switchOffText == "Switching..."
      ensures sent == old(sent) + ClickCommands(ui, houseCode, receiverCode, switchAll, switchTo)
    {
      switchButtonsEnabled := false;
      switchOnText, switchOffText := "Switching...", "Switching...";
      sent := sent + ClickCommands(ui, houseCode, receiverCode, switchAll, switchTo);
    }

    /** `dim_clicked`: lock the dim button and send the dim request. */
    method DimClicked(ui: Controls)
      requires Valid()
      modifies this`dimButtonEnabled, this`dimText, this`sent
      ensures Valid() && !dimButtonEnabled && dimText == "Dimming..."
      ensures sent == old(sent) + DimCommands(ui, typeIndex, switchAll)
    {
      dimButtonEnabled := false;
      dimText := "Dimming...";
      sent := sent + DimCommands(ui, typeIndex, switchAll);
    }

    /** `remote_type_changed(index)`: configure remote type `index + 1` and register its status callback. */
    method RemoteTypeChanged(index: int, minimumRepeats: int)
      modifies this`sent, this`callbacks
      ensures RemoteTypeOf(index).None? ==> sent == old(sent) && callbacks == old(callbacks)
      ensures RemoteTypeOf(index).Some? ==>
        var t := RemoteTypeOf(index).value;
        sent == old(sent) + [SetRemoteConfiguration(t, minimumRepeats, true)] &&
        callbacks == old(callbacks)[StatusCallback(t) := StatusHandler(t)]
    {
      var t := RemoteTypeOf(index);
      if t.Some? {
        sent := sent + [SetRemoteConfiguration(t.value, minimumRepeats, true)];
        callbacks := callbacks[StatusCallback(t.value) := StatusHandler(t.value)];
      }
    }

    /** `cb_switching_done`: unlock the switch and dim buttons and restore their texts. */
    method CbSwitchingDone()
      requires Valid()
      modifies this`switchButtonsEnabled, this`switchOnText, this`switchOffText, this`dimButtonEnabled, this`dimText
      ensures Valid() && switchButtonsEnabled && dimButtonEnabled
      ensures switchOnText == "Switch On" && switchOffText == "Switch Off" && dimText == "Dim"
    {
      switchButtonsEnabled, dimButtonEnabled := true, true;
      switchOnText, switchOffText, dimText := "Switch On", "Switch Off", "Dim";
    }
  }
}
