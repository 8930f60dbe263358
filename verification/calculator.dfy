/** The calculator's state: the input fields, the last resolved GPIO number,
    the two result labels and the command text box, and the operations that
    update them in place. */
module Calculator {
  import opened Wrappers
  import opened Text
  import opened Numbering
  import opened Commands

  class GpioCalculator {
    /** The selected SoC family. */
    var soc: Soc
    /** The forward input fields and the backward GPIO number field. */
    var groupText: string
    var portText: string
    var indexText: string
    var gpioText: string
    /** The value of the selected export radio button. */
    var exportMode: string
    /** The last GPIO number a conversion resolved. */
    var resultGpio: Option<int>
    /** The text of the command box and of the two result labels. */
    var cmd: string
    var forwardLabel: string
    var backwardLabel: string
    /** The command box stays empty until a number has been resolved. */
    ghost predicate Valid()
      reads this
    {
      resultGpio.None? ==> cmd == ""
    }

    /** The variables as created: i.MX selected, every field empty, mode
        "export", no number resolved yet. */
    constructor ()
      ensures Valid()
      ensures soc == IMX && exportMode == "export" && resultGpio.None?
      ensures groupText == portText == indexText == gpioText == ""
      ensures cmd == forwardLabel == backwardLabel == ""
    {
      soc := IMX;
      groupText, portText, indexText, gpioText := "", "", "", "";
      exportMode := "export";
      resultGpio := None;
      cmd, forwardLabel, backwardLabel := "", "", "";
    }

    /** Clears every field, forgets the resolved number, empties the command
        box and the labels, and selects mode "export" again. */
    method ResetState()
      modifies this
      ensures Valid()
      ensures soc == old(soc) && exportMode == "export" && resultGpio.None?
      ensures groupText == portText == indexText == gpioText == ""
      ensures cmd == forwardLabel == backwardLabel == ""
    {
      groupText, portText, indexText, gpioText := "", "", "", "";
      exportMode := "export";
      resultGpio := None;
      cmd := "";
      forwardLabel, backwardLabel := "", "";
    }

    /** Rewrites the command box for the resolved number and the selected
        mode; does nothing while no number is resolved. */
    method UpdateExportCmd()
      requires Valid()
      modifies this`cmd
      ensures Valid()
      ensures resultGpio.None? ==> cmd == old(cmd)
      ensures resultGpio.Some? ==>
        cmd == CommandText(resultGpio.value, ModeNamed(exportMode))
    {
      if resultGpio.None? {
        return;
      }
      var gpio := resultGpio.value;
      var mode := ModeNamed(exportMode);
      cmd := CommandText(gpio, mode);
    }

    /** An export radio button: selects the mode, then refreshes the command. */
    method SelectExportMode(mode: string)
      requires Valid()
      modifies this`exportMode, this`cmd
      ensures Valid()
      ensures exportMode == mode
      ensures resultGpio.None? ==> cmd == old(cmd)
      ensures resultGpio.Some? ==> cmd == CommandText(resultGpio.value, ModeNamed(mode))
    {
      exportMode := mode;
      UpdateExportCmd();
    }

    /** The forward conversion of the fields the family reads. On success the
        number is resolved, shown in the forward label and in the command; if
        a field does not parse, nothing changes at all. */
    method CalcForward()
      requires Valid()
      modifies this`resultGpio, this`forwardLabel, this`cmd
      ensures Valid()
      ensures ForwardNumber(soc, groupText, portText, indexText).None? ==> unchanged(this)
      ensures ForwardNumber(soc, groupText, portText, indexText).Some? ==>
        var n := ForwardNumber(soc, groupText, portText, indexText).value;
        && resultGpio == Some(n)
        && forwardLabel == "GPIO = " + IntToString(n)
        && cmd == CommandText(n, ModeNamed(exportMode))
    {
      match ForwardNumber(soc, groupText, portText, indexText)
      case None =>
      case Some(gpio) =>
        resultGpio := Some(gpio);
        forwardLabel := "GPIO = " + IntToString(gpio);
        UpdateExportCmd();
    }

    /** The backward conversion of the GPIO number field. If the field does
        not parse, nothing changes. Otherwise the number is resolved at once;
        the name label and the command follow only when the name can be
        printed, so a failing `chr` leaves them showing an older number. */
    method CalcBackward()
      requires Valid()
      modifies this`resultGpio, this`backwardLabel, this`cmd
      ensures Valid()
      ensures ParseInt(gpioText).None? ==> unchanged(this)
      ensures ParseInt(gpioText).Some? ==>
        var n := ParseInt(gpioText).value;
        var name := BackwardName(soc, n);
        && resultGpio == Some(n)
        && (name.Some? ==> backwardLabel == name.value && cmd == CommandText(n, ModeNamed(exportMode)))
        && (name.None? ==> backwardLabel == old(backwardLabel) && cmd == old(cmd))
    {
      var parsed := ParseInt(gpioText);
      if parsed.Some? {
        var gpio := parsed.value;
        resultGpio := Some(gpio);
        var name := BackwardName(soc, gpio);
        if name.Some? {
          backwardLabel := name.value;
          UpdateExportCmd();
        } else {
          assert Valid();
        }
      }
    }
  }
}
