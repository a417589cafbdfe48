// The tempo badge of src/components/EnhancedSongCard.tsx: its label and its
// colour, both chosen by the same thresholds.

module EnhancedSongCard {
  import opened Wrappers
  import opened Songs

  /** The badge colours: grey, blue, green, yellow, red. */
  datatype Colour = Grey | Blue | Green | Yellow | Red

  /** getTempoColor. */
  function TempoColour(tempo: Option<real>): (c: Colour)
  {
    if !TruthyNumber(tempo) then Grey
    else if tempo.value < 90.0 then Blue
    else if tempo.value < 120.0 then Green
    else if tempo.value < 150.0 then Yellow
    else Red
  }

  /** getTempoLabel. */
  function TempoLabel(tempo: Option<real>): (l: string)
  {
    if !TruthyNumber(tempo) then "Unknown"
    else if tempo.value < 90.0 then "Slow"
    else if tempo.value < 120.0 then "Medium"
    else if tempo.value < 150.0 then "Fast"
    else "Very Fast"
  }

  /** A missing or zero tempo is 'Unknown' and grey; the labels follow the thresholds 90, 120 and 150. */
  lemma TempoLabelCases(tempo: Option<real>)
    ensures !TruthyNumber(tempo) <==> TempoLabel(tempo) == "Unknown"
    ensures !TruthyNumber(tempo) <==> TempoColour(tempo) == Grey
    ensures TruthyNumber(tempo) && tempo.value < 90.0 ==> TempoLabel(tempo) == "Slow"
    ensures TruthyNumber(tempo) && 90.0 <= tempo.value < 120.0 ==> TempoLabel(tempo) == "Medium"
    ensures TruthyNumber(tempo) && 120.0 <= tempo.value < 150.0 ==> TempoLabel(tempo) == "Fast"
    ensures TruthyNumber(tempo) && 150.0 <= tempo.value ==> TempoLabel(tempo) == "Very Fast"
  {
  }

  /** The colour each label is shown in. */
  function LabelColour(l: string): Colour
  {
    if l == "Slow" then Blue
    else if l == "Medium" then Green
    else if l == "Fast" then Yellow
    else if l == "Very Fast" then Red
    else Grey
  }

  /** Colour and label agree: the colour is the label's colour, and two tempos with one label share a colour. */
  lemma ColourFollowsLabel(a: Option<real>, b: Option<real>)
    ensures TempoColour(a) == LabelColour(TempoLabel(a))
    ensures TempoLabel(a) == TempoLabel(b) <==> TempoColour(a) == TempoColour(b)
  {
  }

  function LabelRank(l: string): nat
  {
    if l == "Slow" then 0 else if l == "Medium" then 1 else if l == "Fast" then 2 else 3
  }

  function ColourRank(c: Colour): nat
  {
    match c
    case Blue => 0
    case Green => 1
    case Yellow => 2
    case Red => 3
    case Grey => 0
  }

  /** Among known tempos both classifiers are monotone: a faster tempo never gets a slower label or colour. */
  lemma ClassifiersMonotone(a: real, b: real)
    requires a != 0.0 && b != 0.0 && a <= b
    ensures LabelRank(TempoLabel(Some(a))) <= LabelRank(TempoLabel(Some(b)))
    ensures ColourRank(TempoColour(Some(a))) <= ColourRank(TempoColour(Some(b)))
  {
  }
}
