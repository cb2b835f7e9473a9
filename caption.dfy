/**
 * Examples of the information caption the complex-shape drawer writes when
 * the graphics manager passes it its diameter and grade tables.
 */
module Caption {
  import opened Common
  import ComplexShape
  import Manager

  /** The lengths of the example as `str(int(...))` shows them. */
  lemma ShownLengths()
    ensures Show(100.0) == "100" && Show(50.0) == "50" && Show(300.0) == "300"
  {
    ShowWhole(100);
    ShowWhole(50);
    ShowWhole(300);
  }

  /** The whole-centimetre figures of the staircase 100/50/100/50. */
  lemma CaptionFigures()
    ensures Show(SumReals([100.0, 50.0, 100.0, 50.0])) == "300"
    ensures ShowJoined([100.0, 50.0, 100.0, 50.0]) == "100 + 50 + 100 + 50"
  {
    SumJoinFour(100.0, 50.0, 100.0, 50.0);
    ShownLengths();
    assert 100.0 + 50.0 + 100.0 + 50.0 == 300.0;
  }

  /** The grades of #4 and of a designation outside the tables. */
  lemma CaptionGrade()
    ensures Manager.ComplexHelpers.grade("#4") == "SD280"
    ensures Manager.ComplexHelpers.grade("#99") == "SD490"
  {
    assert Manager.Grade("#4") == "SD280";
  }

  /** The diameter shown for #4 and for a designation outside the table. */
  lemma CaptionDiameter()
    ensures OneDecimal(ComplexShape.DiameterOf(Manager.ComplexHelpers, "#4")) == "12.7"
    ensures OneDecimal(ComplexShape.DiameterOf(Manager.ComplexHelpers, "#99")) == "12.7"
  {
    assert Manager.Diameter("#4") == 12.7 && Manager.Diameter("#99") == 12.7;
    assert OneDecimal(12.7) == "12.7";
  }

  /**
   * The complex drawer's caption for #4 with the manager's helpers: the
   * table diameter and grade, then the total, the lengths and their count.
   */
  lemma CaptionKnown()
    ensures ComplexShape.InfoText([100.0, 50.0, 100.0, 50.0], "#4", Manager.ComplexHelpers)
            == "鋼筋規格: D" + "12.7" + "mm\n" + "材料等級: " + "SD280" + "\n"
               + "總長度: " + "300" + "cm\n" + "分段: " + "100 + 50 + 100 + 50" + "cm\n"
               + "段數: " + "4" + "段\n" + "形狀: 階梯"
  {
    CaptionFigures();
    CaptionDiameter();
    CaptionGrade();
    assert NatToString(4) == "4";
  }

  /** A designation outside the tables is captioned 12.7 mm and SD490. */
  lemma CaptionUnknown()
    ensures ComplexShape.InfoText([100.0, 50.0, 100.0, 50.0], "#99", Manager.ComplexHelpers)
            == "鋼筋規格: D" + "12.7" + "mm\n" + "材料等級: " + "SD490" + "\n"
               + "總長度: " + "300" + "cm\n" + "分段: " + "100 + 50 + 100 + 50" + "cm\n"
               + "段數: " + "4" + "段\n" + "形狀: 階梯"
  {
    CaptionFigures();
    CaptionDiameter();
    CaptionGrade();
    assert NatToString(4) == "4";
  }
}
