/** The GPIO numbering of the three SoC families: the forward conversion from
    a pin descriptor to a Linux sysfs GPIO number, the backward conversion and
    the pin name it prints, and the parsing of the three forward input fields. */
module Numbering {
  import opened Wrappers
  import opened Text

  /** The SoC family selected with the radio buttons. */
  datatype Soc = IMX | Rockchip | Allwinner

  /** A pin descriptor. A port is kept as its letter's offset from 'A'
      (`ord(letter) - ord('A')`), so it may be any integer, as in the code. */
  datatype Pin =
    | RockchipPin(group: int, port: int, index: int)
    | ImxPin(group: int, index: int)
    | AllwinnerPin(port: int, index: int)
  {
    function Family(): Soc {
      match this
      case RockchipPin(_, _, _) => Rockchip
      case ImxPin(_, _) => IMX
      case AllwinnerPin(_, _) => Allwinner
    }
  }

  const PORT_BASE: int := 'A' as int

  /** Forward arithmetic: the flat GPIO number of a pin. Numbers come in banks
      of 32; a pin in the decoded range lands in the bank of its group (i.MX
      counts groups from 1, Allwinner uses the port) at the offset its port
      and index give. */
  function ToNumber(pin: Pin): (n: int)
    ensures pin.RockchipPin? && Canonical(pin) ==> n / 32 == pin.group && n % 32 == pin.port * 8 + pin.index
    ensures pin.ImxPin? && Canonical(pin) ==> n / 32 == pin.group - 1 && n % 32 == pin.index
    ensures pin.AllwinnerPin? && Canonical(pin) ==> n / 32 == pin.port && n % 32 == pin.index
  {
    match pin
    case RockchipPin(g, p, i) => g * 32 + p * 8 + i
    case ImxPin(g, i) => (g - 1) * 32 + i
    case AllwinnerPin(p, i) => p * 32 + i
  }

  /** Backward arithmetic: the pin of a GPIO number, by floor division and
      modulo (Dafny's / and % agree with Python's // and % for a positive
      divisor, negative numbers included). */
  function FromNumber(soc: Soc, n: int): (pin: Pin)
    ensures pin.Family() == soc
    ensures pin.RockchipPin? ==> 0 <= pin.port < 4 && 0 <= pin.index < 8
    ensures 0 <= pin.index < 32
    ensures n >= 0 && pin.RockchipPin? ==> pin.group >= 0
    ensures n >= 0 && pin.ImxPin? ==> pin.group >= 1
    ensures n >= 0 && pin.AllwinnerPin? ==> pin.port >= 0
  {
    match soc
    case Rockchip => RockchipPin(n / 32, (n % 32) / 8, n % 8)
    case IMX => ImxPin(n / 32 + 1, n % 32)
    case Allwinner => AllwinnerPin(n / 32, n % 32)
  }

  /** The pins that decoding can produce: the index (and a Rockchip port) lie
      in the range the modulo gives; groups and Allwinner ports are unbounded. */
  predicate Canonical(pin: Pin) {
    match pin
    case RockchipPin(_, p, i) => 0 <= p < 4 && 0 <= i < 8
    case ImxPin(_, i) => 0 <= i < 32
    case AllwinnerPin(_, i) => 0 <= i < 32
  }

  /** The descriptors the combo boxes offer for each family: all of them are
      in the decoded range and encode below the family's span. */
  predicate InRange(pin: Pin)
    ensures InRange(pin) ==> Canonical(pin) && 0 <= ToNumber(pin) < Span(pin.Family())
  {
    match pin
    case RockchipPin(g, p, i) => 0 <= g < 8 && 0 <= p < 4 && 0 <= i < 8
    case ImxPin(g, i) => 1 <= g <= 8 && 0 <= i < 32
    case AllwinnerPin(p, i) => 0 <= p < 26 && 0 <= i < 32
  }

  /** How many GPIO numbers the offered descriptors of a family cover: a
      whole number of 32-pin banks. */
  function Span(soc: Soc): (n: nat)
    ensures n > 0 && n % 32 == 0
  {
    match soc
    case Rockchip => 8 * 4 * 8
    case IMX => 8 * 32
    case Allwinner => 26 * 32
  }

  /** Floor division by 32 is determined by quotient and remainder. */
  lemma DivMod32(n: int, q: int, r: int)
    requires n == q * 32 + r && 0 <= r < 32
    ensures n / 32 == q && n % 32 == r
  {
  }

  /** Floor division by 8 is determined by quotient and remainder. */
  lemma DivMod8(n: int, q: int, r: int)
    requires n == q * 8 + r && 0 <= r < 8
    ensures n / 8 == q && n % 8 == r
  {
  }

  /** Backward then forward: re-encoding a decoded number gives it back, for
      every integer and every family. */
  lemma {:induction false} DecodeThenEncode(soc: Soc, n: int)
    ensures ToNumber(FromNumber(soc, n)) == n
  {
    if soc == Rockchip {
      var r := n % 32;
      DivMod8(n, (n / 32) * 4 + r / 8, r % 8);
    }
  }

  /** Forward then backward: decoding an encoded pin gives it back exactly
      when the pin is canonical; no bound on the group is needed. */
  lemma {:induction false} EncodeThenDecode(pin: Pin)
    ensures FromNumber(pin.Family(), ToNumber(pin)) == pin <==> Canonical(pin)
  {
    if Canonical(pin) {
      var n := ToNumber(pin);
      match pin
      case RockchipPin(g, p, i) =>
        DivMod32(n, g, p * 8 + i);
        DivMod8(p * 8 + i, p, i);
        DivMod8(n, g * 4 + p, i);
      case ImxPin(g, i) =>
        DivMod32(n, g - 1, i);
      case AllwinnerPin(p, i) =>
        DivMod32(n, p, i);
    }
  }

  /** The offered descriptors of a family and the numbers 0 .. Span - 1 are in
      one-to-one correspondence. */
  lemma {:induction false} OfferedNumbers(pin: Pin, soc: Soc, n: int)
    ensures InRange(pin) ==> 0 <= ToNumber(pin) < Span(pin.Family())
    ensures InRange(pin) ==> FromNumber(pin.Family(), ToNumber(pin)) == pin
    ensures 0 <= n < Span(soc) ==> InRange(FromNumber(soc, n))
  {
    if InRange(pin) {
      EncodeThenDecode(pin);
    }
    if 0 <= n < Span(soc) {
      var r := n % 32;
      DivMod32(n, n / 32, r);
    }
  }

  // ---------------------------------------------------------------------
  // Backward: the printed pin name

  /** `chr(ord('A') + port)`: the letter of a port, if it is a character. */
  function PortLetter(port: int): (r: Option<char>)
    ensures r.Some? <==> IsScalar(PORT_BASE + port)
    ensures r.Some? ==> ParsePort([r.value]) == Some(port)
  {
    Chr(PORT_BASE + port)
  }

  /** The name the backward conversion prints for a pin; `None` when `chr`
      raises for the port letter. */
  function PinName(pin: Pin): (r: Option<string>)
    ensures r.None? <==> !pin.ImxPin? && !IsScalar(PORT_BASE + pin.port)
  {
    match pin
    case RockchipPin(g, p, i) =>
      (match PortLetter(p)
       case Some(c) => Some("GPIO" + IntToString(g) + "_" + [c] + IntToString(i))
       case None => None)
    case ImxPin(g, i) => Some("GPIO" + IntToString(g) + "_IO" + ZeroPad2(i))
    case AllwinnerPin(p, i) =>
      (match PortLetter(p)
       case Some(c) => Some("P" + [c] + IntToString(i))
       case None => None)
  }

  /** The name printed for GPIO number n. */
  function BackwardName(soc: Soc, n: int): (r: Option<string>)
    ensures soc != Allwinner ==> r.Some?
    ensures soc == Allwinner ==> (r.Some? <==> IsScalar(PORT_BASE + n / 32))
  {
    PinName(FromNumber(soc, n))
  }

  /** The three name formats, spelled out from the number itself. */
  lemma NameFormats(soc: Soc, n: int)
    ensures soc == Rockchip ==>
      var c := (PORT_BASE + (n % 32) / 8) as char;
      'A' <= c <= 'D' &&
      BackwardName(soc, n) == Some("GPIO" + IntToString(n / 32) + "_" + [c] + IntToString(n % 8))
    ensures soc == IMX ==>
      |ZeroPad2(n % 32)| == 2 &&
      BackwardName(soc, n) == Some("GPIO" + IntToString(n / 32 + 1) + "_IO" + ZeroPad2(n % 32))
    ensures soc == Allwinner && IsScalar(PORT_BASE + n / 32) ==>
      BackwardName(soc, n) == Some("P" + [(PORT_BASE + n / 32) as char] + IntToString(n % 32))
  {
    match soc
    case Rockchip =>
      var p := (n % 32) / 8;
      assert 0 <= p < 4;
      assert PortLetter(p) == Some((PORT_BASE + p) as char);
    case IMX =>
      assert 0 <= n % 32 < 100;
    case Allwinner =>
  }

  /** Different numbers get different Rockchip names. */
  lemma {:induction false} RockchipNameInjective(m: int, n: int)
    requires BackwardName(Rockchip, m) == BackwardName(Rockchip, n)
    ensures m == n
  {
    var pm, pn := FromNumber(Rockchip, m), FromNumber(Rockchip, n);
    var cm, cn := PortLetter(pm.port).value, PortLetter(pn.port).value;
    var am, bm := IntToString(pm.group), "_" + [cm] + IntToString(pm.index);
    var an, bn := IntToString(pn.group), "_" + [cn] + IntToString(pn.index);
    assert "GPIO" + am + "_" + [cm] + IntToString(pm.index) == "GPIO" + (am + bm);
    assert "GPIO" + an + "_" + [cn] + IntToString(pn.index) == "GPIO" + (an + bn);
    assert am + bm == ("GPIO" + (am + bm))[4..];
    assert an + bn == ("GPIO" + (an + bn))[4..];
    NumeralSplit(am, bm, an, bn);
    assert bm[1] == cm && bn[1] == cn;
    assert bm[2..] == IntToString(pm.index) && bn[2..] == IntToString(pn.index);
    IntToStringInjective(pm.group, pn.group);
    IntToStringInjective(pm.index, pn.index);
    DecodeThenEncode(Rockchip, m);
    DecodeThenEncode(Rockchip, n);
  }

  /** Different numbers get different i.MX names. */
  lemma {:induction false} ImxNameInjective(m: int, n: int)
    requires BackwardName(IMX, m) == BackwardName(IMX, n)
    ensures m == n
  {
    var pm, pn := FromNumber(IMX, m), FromNumber(IMX, n);
    var am, bm := IntToString(pm.group), "_IO" + ZeroPad2(pm.index);
    var an, bn := IntToString(pn.group), "_IO" + ZeroPad2(pn.index);
    assert "GPIO" + am + "_IO" + ZeroPad2(pm.index) == "GPIO" + (am + bm);
    assert "GPIO" + an + "_IO" + ZeroPad2(pn.index) == "GPIO" + (an + bn);
    assert am + bm == ("GPIO" + (am + bm))[4..];
    assert an + bn == ("GPIO" + (an + bn))[4..];
    NumeralSplit(am, bm, an, bn);
    assert bm[3..] == ZeroPad2(pm.index) && bn[3..] == ZeroPad2(pn.index);
    IntToStringInjective(pm.group, pn.group);
    DecodeThenEncode(IMX, m);
    DecodeThenEncode(IMX, n);
  }

  /** Different numbers get different Allwinner names, where both exist. */
  lemma {:induction false} AllwinnerNameInjective(m: int, n: int)
    requires BackwardName(Allwinner, m).Some?
    requires BackwardName(Allwinner, m) == BackwardName(Allwinner, n)
    ensures m == n
  {
    var pm, pn := FromNumber(Allwinner, m), FromNumber(Allwinner, n);
    var cm, cn := PortLetter(pm.port).value, PortLetter(pn.port).value;
    var name := "P" + [cm] + IntToString(pm.index);
    assert name == "P" + [cn] + IntToString(pn.index);
    assert name[1] == cm && name[1] == cn;
    assert name[2..] == IntToString(pm.index) && name[2..] == IntToString(pn.index);
    IntToStringInjective(pm.index, pn.index);
    DecodeThenEncode(Allwinner, m);
    DecodeThenEncode(Allwinner, n);
  }

  // ---------------------------------------------------------------------
  // Forward: parsing the three input fields

  /** `int(text.replace("GPIO", ""))`: the group field. */
  function ParseGroup(text: string): (r: Option<int>)
    ensures text == [] ==> r.None?
    ensures 'G' !in text ==> r == ParseInt(text)
  {
    ParseInt(RemoveGpio(text))
  }

  /** `ord(text) - ord('A')`: the port field. */
  function ParsePort(text: string): (r: Option<int>)
    ensures r.Some? <==> |text| == 1
    ensures r.Some? ==> Chr(PORT_BASE + r.value) == Some(text[0])
  {
    match Ord(text)
    case Some(c) => Some(c - PORT_BASE)
    case None => None
  }

  /** The descriptor that the fields a family reads describe; `None` when
      `int()` or `ord()` raises on one of them. */
  function ParsePin(soc: Soc, groupText: string, portText: string, indexText: string): (r: Option<Pin>)
    ensures r.Some? ==> r.value.Family() == soc
    ensures ParseInt(indexText).None? ==> r.None?
    ensures soc != IMX && |portText| != 1 ==> r.None?
    ensures soc != Allwinner && ParseGroup(groupText).None? ==> r.None?
  {
    match soc
    case Rockchip =>
      (match (ParseGroup(groupText), ParsePort(portText), ParseInt(indexText))
       case (Some(g), Some(p), Some(i)) => Some(RockchipPin(g, p, i))
       case _ => None)
    case IMX =>
      (match (ParseGroup(groupText), ParseInt(indexText))
       case (Some(g), Some(i)) => Some(ImxPin(g, i))
       case _ => None)
    case Allwinner =>
      (match (ParsePort(portText), ParseInt(indexText))
       case (Some(p), Some(i)) => Some(AllwinnerPin(p, i))
       case _ => None)
  }

  /** The forward conversion of the three fields. It fails exactly when a
      field the family reads does not parse; a number it gives decodes back to
      the entered descriptor whenever that lies in the decoded range. */
  function ForwardNumber(soc: Soc, groupText: string, portText: string, indexText: string): (r: Option<int>)
    ensures r.Some? <==>
      && ParseInt(indexText).Some?
      && (soc != IMX ==> |portText| == 1)
      && (soc != Allwinner ==> ParseGroup(groupText).Some?)
    ensures r.Some? && Canonical(ParsePin(soc, groupText, portText, indexText).value) ==>
      FromNumber(soc, r.value) == ParsePin(soc, groupText, portText, indexText).value
  {
    match ParsePin(soc, groupText, portText, indexText)
    case Some(pin) =>
      EncodeThenDecode(pin);
      Some(ToNumber(pin))
    case None => None
  }

  /** The forward formulas of the three families, in terms of the parsed
      group, the port character and the parsed index. No range is checked. */
  lemma ForwardFormulas(groupText: string, c: char, indexText: string, g: int, i: int)
    requires ParseGroup(groupText) == Some(g) && ParseInt(indexText) == Some(i)
    ensures ForwardNumber(Rockchip, groupText, [c], indexText) == Some(g * 32 + (c as int - 'A' as int) * 8 + i)
    ensures ForwardNumber(IMX, groupText, [c], indexText) == Some((g - 1) * 32 + i)
    ensures ForwardNumber(Allwinner, groupText, [c], indexText) == Some((c as int - 'A' as int) * 32 + i)
  {
  }

  /** i.MX does not read the port field and Allwinner does not read the
      group field. */
  lemma UnreadFields(groupText: string, portText: string, indexText: string, other: string)
    ensures ForwardNumber(IMX, groupText, portText, indexText) == ForwardNumber(IMX, groupText, other, indexText)
    ensures ForwardNumber(Allwinner, groupText, portText, indexText) == ForwardNumber(Allwinner, other, portText, indexText)
  {
  }

  /** The port letter as a one-character text, empty if it is no character. */
  function LetterText(port: int): string {
    match PortLetter(port)
    case Some(c) => [c]
    case None => ""
  }

  /** The combo box texts that select a pin: "GPIO" and the group, the port
      letter, the index in decimal. A field the family does not read is empty. */
  function ChoiceTexts(pin: Pin): (string, string, string) {
    match pin
    case RockchipPin(g, p, i) => ("GPIO" + IntToString(g), LetterText(p), IntToString(i))
    case ImxPin(g, i) => ("GPIO" + IntToString(g), "", IntToString(i))
    case AllwinnerPin(p, i) => ("", LetterText(p), IntToString(i))
  }

  /** "GPIO" followed by a printed group parses back to the group. */
  lemma ParseGroupChoice(g: int)
    ensures ParseGroup("GPIO" + IntToString(g)) == Some(g)
  {
    var digits := IntToString(g);
    RemoveGpioPrefix(digits);
    assert 'G' !in digits;
    ParseIntToString(g);
  }

  /** Selecting the texts of a pin in the forward fields parses back to the
      pin, whenever its port letter is a character. */
  lemma {:induction false} ParseChoices(pin: Pin)
    requires pin.ImxPin? || IsScalar(PORT_BASE + pin.port)
    ensures ParsePin(pin.Family(), ChoiceTexts(pin).0, ChoiceTexts(pin).1, ChoiceTexts(pin).2) == Some(pin)
  {
    ParseIntToString(pin.index);
    match pin
    case RockchipPin(g, p, i) =>
      ParseGroupChoice(g);
    case ImxPin(g, i) =>
      ParseGroupChoice(g);
    case AllwinnerPin(p, i) =>
  }

  /** Backward then forward through the fields: entering the decoded group,
      port and index of n as forward input gives back n. */
  lemma {:induction false} BackwardThenForward(soc: Soc, n: int)
    requires BackwardName(soc, n).Some?
    ensures var texts := ChoiceTexts(FromNumber(soc, n));
      ForwardNumber(soc, texts.0, texts.1, texts.2) == Some(n)
  {
    ParseChoices(FromNumber(soc, n));
    DecodeThenEncode(soc, n);
  }

  /** Every combination the combo boxes offer converts to a number below the
      family's span, and that number decodes to the same descriptor. */
  lemma {:induction false} OfferedChoices(pin: Pin)
    requires InRange(pin)
    ensures var texts := ChoiceTexts(pin);
      ForwardNumber(pin.Family(), texts.0, texts.1, texts.2) == Some(ToNumber(pin))
    ensures 0 <= ToNumber(pin) < Span(pin.Family())
    ensures FromNumber(pin.Family(), ToNumber(pin)) == pin
  {
    ParseChoices(pin);
    OfferedNumbers(pin, pin.Family(), 0);
  }

  /** Worked forward examples, and a place where the code is more permissive
      than the Rockchip range: port 'Z' is converted. */
  lemma ForwardExamples()
    ensures ForwardNumber(Rockchip, "GPIO1", "B", "3") == Some(43)
    ensures ForwardNumber(IMX, "GPIO5", "", "10") == Some(138)
    ensures ForwardNumber(Allwinner, "", "C", "7") == Some(71)
    ensures ForwardNumber(Rockchip, "GPIO1", "Z", "3") == Some(235)
  {
    ExampleFields();
    assert ParsePort("B") == Some(1) && ParsePort("C") == Some(2) && ParsePort("Z") == Some(25);
    assert ParsePin(Rockchip, "GPIO1", "B", "3") == Some(RockchipPin(1, 1, 3));
    assert ParsePin(IMX, "GPIO5", "", "10") == Some(ImxPin(5, 10));
    assert ParsePin(Allwinner, "", "C", "7") == Some(AllwinnerPin(2, 7));
    assert ParsePin(Rockchip, "GPIO1", "Z", "3") == Some(RockchipPin(1, 25, 3));
  }

  /** The group and index texts of the worked forward examples. */
  lemma ExampleFields()
    ensures ParseGroup("GPIO1") == Some(1) && ParseGroup("GPIO5") == Some(5)
    ensures ParseInt("3") == Some(3) && ParseInt("10") == Some(10) && ParseInt("7") == Some(7)
  {
    ParseGroupChoice(1);
    ParseGroupChoice(5);
    assert IntToString(1) == "1" && IntToString(5) == "5";
    assert "GPIO" + "1" == "GPIO1" && "GPIO" + "5" == "GPIO5";
    assert "10"[..1] == "1" && "3"[..0] == "" && "7"[..0] == "";
  }

  /** Worked backward examples, and -1, which decodes although it is negative. */
  lemma BackwardExamples()
    ensures BackwardName(Rockchip, 43) == Some("GPIO1_B3")
    ensures BackwardName(IMX, 138) == Some("GPIO5_IO10")
    ensures BackwardName(Allwinner, 71) == Some("PC7")
    ensures BackwardName(IMX, -1) == Some("GPIO0_IO31")
  {
    assert FromNumber(Rockchip, 43) == RockchipPin(1, 1, 3);
    assert PortLetter(1) == Some('B');
    assert IntToString(1) == "1" && IntToString(3) == "3";
    assert "GPIO" + "1" + "_" + ['B'] + "3" == "GPIO1_B3";
    assert FromNumber(IMX, 138) == ImxPin(5, 10);
    assert IntToString(5) == "5" && ZeroPad2(10) == "10";
    assert "GPIO" + "5" + "_IO" + "10" == "GPIO5_IO10";
    assert FromNumber(Allwinner, 71) == AllwinnerPin(2, 7);
    assert PortLetter(2) == Some('C') && IntToString(7) == "7";
    assert "P" + ['C'] + "7" == "PC7";
    assert FromNumber(IMX, -1) == ImxPin(0, 31);
    assert IntToString(0) == "0" && ZeroPad2(31) == "31";
    assert "GPIO" + "0" + "_IO" + "31" == "GPIO0_IO31";
  }
}
