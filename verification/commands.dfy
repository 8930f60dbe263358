/** The sysfs shell command shown for the last resolved GPIO number. */
module Commands {
  import opened Text

  /** The four export radio buttons. */
  datatype ExportMode = Export | ExportLow | ExportHigh | ExportInput

  /** The mode selected by a radio-button value: the code compares with
      "export", "export low" and "export high" and reads the pin otherwise. */
  function ModeNamed(name: string): (mode: ExportMode)
    ensures mode == Export <==> name == "export"
    ensures mode == ExportLow <==> name == "export low"
    ensures mode == ExportHigh <==> name == "export high"
    ensures mode == ExportInput <==> name != "export" && name != "export low" && name != "export high"
  {
    if name == "export" then Export
    else if name == "export low" then ExportLow
    else if name == "export high" then ExportHigh
    else ExportInput
  }

  /** The first line of every command: the printed number sits between
      "echo " and " > /sys/class/gpio/export". */
  function ExportLine(gpio: int): (r: string)
    ensures |r| == 5 + |IntToString(gpio)| + 25
    ensures r[5..|r| - 25] == IntToString(gpio)
  {
    "echo " + IntToString(gpio) + " > /sys/class/gpio/export"
  }

  /** What follows the export line: nothing, or a newline and one more command
      on the pin's own directory, named after the same printed number. */
  function FollowUp(gpio: int, mode: ExportMode): (r: string)
    ensures r == [] <==> mode == Export
    ensures mode != Export ==> r[0] == '\n'
    ensures mode == ExportLow ==> |r| == 32 + |IntToString(gpio)| + 10 && r[32..|r| - 10] == IntToString(gpio)
    ensures mode == ExportHigh ==> |r| == 33 + |IntToString(gpio)| + 10 && r[33..|r| - 10] == IntToString(gpio)
    ensures mode == ExportInput ==> |r| == 25 + |IntToString(gpio)| + 6 && r[25..|r| - 6] == IntToString(gpio)
  {
    match mode
    case Export => ""
    case ExportLow => "\necho low > /sys/class/gpio/gpio" + IntToString(gpio) + "/direction"
    case ExportHigh => "\necho high > /sys/class/gpio/gpio" + IntToString(gpio) + "/direction"
    case ExportInput => "\ncat /sys/class/gpio/gpio" + IntToString(gpio) + "/value"
  }

  /** The command text for a GPIO number and an export mode. Every command
      starts with the export line; mode "export" is exactly that line, and
      every other mode puts a newline right after it. */
  function CommandText(gpio: int, mode: ExportMode): (r: string)
    ensures ExportLine(gpio) <= r
    ensures r == ExportLine(gpio) <==> mode == Export
    ensures mode != Export ==> |r| > |ExportLine(gpio)| && r[|ExportLine(gpio)|] == '\n'
  {
    ExportLine(gpio) + FollowUp(gpio, mode)
  }

  /** Concatenation regrouped. */
  lemma Regroup(x: string, y: string, z: string)
    ensures x + y + z == x + (y + z)
  {
  }

  /** The text after the export line, which the mode alone determines once
      the number is known. */
  lemma {:induction false} FollowUpInjective(gpio: int, mode: ExportMode, mode': ExportMode)
    requires FollowUp(gpio, mode) == FollowUp(gpio, mode')
    ensures mode == mode'
  {
  }

  /** The command text tells both the GPIO number and the export mode apart. */
  lemma {:induction false} CommandInjective(gpio: int, mode: ExportMode, gpio': int, mode': ExportMode)
    ensures CommandText(gpio, mode) == CommandText(gpio', mode') ==> gpio == gpio' && mode == mode'
  {
    if CommandText(gpio, mode) == CommandText(gpio', mode') {
      var a, a' := IntToString(gpio), IntToString(gpio');
      var rest := " > /sys/class/gpio/export";
      var tail, tail' := FollowUp(gpio, mode), FollowUp(gpio', mode');
      var b, b' := rest + tail, rest + tail';
      Regroup("echo " + a, rest, tail);
      Regroup("echo ", a, rest + tail);
      Regroup("echo " + a', rest, tail');
      Regroup("echo ", a', rest + tail');
      assert "echo " + (a + b) == "echo " + (a' + b');
      assert a + b == ("echo " + (a + b))[5..];
      assert a' + b' == ("echo " + (a' + b'))[5..];
      NumeralSplit(a, b, a', b');
      IntToStringInjective(gpio, gpio');
      assert tail == b[|rest|..] && tail' == b'[|rest|..];
      FollowUpInjective(gpio, mode, mode');
    }
  }

  /** The command of the worked example. */
  lemma CommandExample()
    ensures CommandText(17, ExportHigh)
      == "echo 17 > /sys/class/gpio/export" + "\necho high > /sys/class/gpio/gpio17/direction"
  {
    ExampleExportLine();
    ExampleDirectionLine();
  }

  /** The first line of the worked example. */
  lemma ExampleExportLine()
    ensures ExportLine(17) == "echo 17 > /sys/class/gpio/export"
  {
    ExampleNumeral();
    assert "echo " + "17" == "echo 17";
  }

  /** The second line of the worked example, with its leading newline. */
  lemma ExampleDirectionLine()
    ensures FollowUp(17, ExportHigh) == "\necho high > /sys/class/gpio/gpio17/direction"
  {
    ExampleNumeral();
    assert "\necho high > /sys/class/gpio/gpio" + "17" == "\necho high > /sys/class/gpio/gpio17";
  }

  /** `str(17)`. */
  lemma ExampleNumeral()
    ensures IntToString(17) == "17"
  {
    assert NatToString(1) == ['1'];
    assert NatToString(17) == ['1'] + ['7'];
  }
}
