/** The `CookingInstructions` panel: the heading and the instruction text
    chosen from the page's two flags and the selected doneness label. */
module CookingInstructions {

  datatype Panel = Panel(heading: string, instructions: string)

  const PreparationHeading: string := "准备工作"
  const PreparationText: string := "选择您想要的牛排熟度，然后点击开始烹饪。"
  const CookingHeading: string := "烹饪中"
  const CookingText: string := "按照计时器将牛排每面烤制相同的时间。当计时器提示时，将牛排翻面。"
  const DoneHeading: string := "完成！"
  /** The completion text is these two pieces around the doneness label. */
  const DoneBefore: string := "您的"
  const DoneAfter: string := "牛排已经完成。请稍微静置牛排3-5分钟，然后享用。"

  /** The panel for the given flags. Both locals start empty and each branch
      of the if / else-if / else-if assigns them; the branches cover every
      case, so the trailing empty panel is never produced. */
  function Instructions(isRunning: bool, isComplete: bool, doneness: string): (p: Panel)
    ensures !isRunning && !isComplete ==> p == Panel(PreparationHeading, PreparationText)
    ensures isRunning && !isComplete ==> p == Panel(CookingHeading, CookingText)
    ensures isComplete ==> p.heading == DoneHeading
    ensures isComplete ==>
      && |p.instructions| == |DoneBefore| + |doneness| + |DoneAfter|
      && p.instructions[|DoneBefore|..|DoneBefore| + |doneness|] == doneness
      && p.instructions[..|DoneBefore|] == DoneBefore
      && p.instructions[|DoneBefore| + |doneness|..] == DoneAfter
    ensures p.heading != "" && p.instructions != ""
  {
    if !isRunning && !isComplete then Panel(PreparationHeading, PreparationText)
    else if isRunning && !isComplete then Panel(CookingHeading, CookingText)
    else if isComplete then Panel(DoneHeading, DoneBefore + doneness + DoneAfter)
    else Panel("", "")
  }

  /** The heading alone tells the three phases apart. */
  lemma HeadingsDistinct()
    ensures PreparationHeading != CookingHeading
    ensures CookingHeading != DoneHeading
    ensures PreparationHeading != DoneHeading
  {
    assert PreparationHeading[0] != CookingHeading[0];
    assert CookingHeading[0] != DoneHeading[0];
    assert PreparationHeading[0] != DoneHeading[0];
  }

  /** The heading depends only on the phase: complete wins over running,
      and the doneness label never changes it. */
  lemma HeadingByPhase(isRunning: bool, isComplete: bool, doneness: string)
    ensures Instructions(isRunning, isComplete, doneness).heading
         == if isComplete then DoneHeading
            else if isRunning then CookingHeading
            else PreparationHeading
  {
  }
}
