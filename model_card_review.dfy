/**
 * The model-card exercise: the user picks one of three toxicity classifiers
 * after reading their model cards, and the page answers with a fixed verdict.
 */
module ModelCardReview {

  import opened Wrappers

  const ModelA: string := "Model A: Toxicity Master 5000"
  const ModelB: string := "Model B: Dialect-Aware Classifier"
  const ModelC: string := "Model C: QuickTox v0.1"

  /** The radio options, in the order shown; the radio starts with none selected. */
  const ModelCardOptions: seq<string> := [ModelA, ModelB, ModelC]

  /** How the page shows a verdict. */
  datatype Tone = Success | Warning | Error

  datatype Verdict = Correct | Risky | VeryRisky
  {
    function Heading(): string
    {
      match this
      case Correct => "Correct Choice."
      case Risky => "Risky Choice."
      case VeryRisky => "Very Risky Choice."
    }

    function Tone(): Tone
    {
      match this
      case Correct => Success
      case Risky => Warning
      case VeryRisky => Error
    }
  }

  /** The verdict shown for the radio's selection; nothing is shown before a choice is made. */
  function VerdictFor(selection: Option<string>): (v: Option<Verdict>)
    ensures v == Some(Correct) <==> selection == Some(ModelB)
    ensures v == Some(Risky) <==> selection == Some(ModelA)
    ensures v == Some(VeryRisky) <==> selection == Some(ModelC)
    ensures v == None <==> selection == None || selection.value !in ModelCardOptions
  {
    match selection
    case None => None
    case Some(s) =>
      if s == ModelB then Some(Correct)
      else if s == ModelA then Some(Risky)
      else if s == ModelC then Some(VeryRisky)
      else None
  }

  /** Every option of the radio gets a verdict, and only Model B is the correct choice. */
  lemma OnlyModelBIsCorrect(o: string)
    requires o in ModelCardOptions
    ensures VerdictFor(Some(o)).Some?
    ensures VerdictFor(Some(o)) == Some(Correct) <==> o == ModelB
  {
  }
}
