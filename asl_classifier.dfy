/** The hand-shape-to-letter classifier: 26 rules tried in alphabetical
    order, the first whose guard holds giving the letter, `'?'` when none does.

    Several guards are implied by an earlier one, so their letters can never be
    returned (`DeadLetters`); `ShapeTable` lists what the chain actually decides.
 */
module AslClassifier {
  import opened HandFeatures

  function Abs(v: real): (r: real)
    ensures r >= 0.0 && (r == v || r == -v)
  {
    if v < 0.0 then -v else v
  }

  predicate NoneExtended(pos: Features)
  {
    !pos.indexFinger && !pos.middleFinger && !pos.ringFinger && !pos.pinky
  }

  predicate OnlyIndexExtended(pos: Features)
  {
    pos.indexFinger && !pos.middleFinger && !pos.ringFinger && !pos.pinky
  }

  predicate OnlyPinkyExtended(pos: Features)
  {
    !pos.indexFinger && !pos.middleFinger && !pos.ringFinger && pos.pinky
  }

  predicate IndexAndMiddleExtended(pos: Features)
  {
    pos.indexFinger && pos.middleFinger && !pos.ringFinger && !pos.pinky
  }

  /** The guard of the rule for `letter`, as the chain writes it. */
  predicate Guard(letter: char, pos: Features)
  {
    match letter
    case 'A' => NoneExtended(pos)
    case 'B' => pos.indexFinger && pos.middleFinger && pos.ringFinger && pos.pinky
    case 'C' => NoneExtended(pos) && pos.indexBent && pos.middleBent && pos.ringBent && pos.pinkyBent
    case 'D' => OnlyIndexExtended(pos)
    case 'E' => NoneExtended(pos) && pos.indexBent && pos.middleBent && pos.ringBent && pos.pinkyBent
    case 'F' => !pos.indexFinger && pos.middleFinger && pos.ringFinger && pos.pinky && pos.indexBent
    case 'G' => OnlyIndexExtended(pos) && Abs(pos.indexAngle) > 45.0
    case 'H' => IndexAndMiddleExtended(pos) && Abs(pos.indexAngle) > 45.0
    case 'I' => OnlyPinkyExtended(pos)
    case 'J' => OnlyPinkyExtended(pos) && Abs(pos.indexAngle) > 45.0
    case 'K' => IndexAndMiddleExtended(pos) && Abs(pos.indexX - pos.middleX) > 20.0
    case 'L' => OnlyIndexExtended(pos) && Abs(pos.thumbAngle - pos.indexAngle) > 60.0
    case 'M' => NoneExtended(pos) && pos.indexBent && pos.middleBent && pos.ringBent
    case 'N' => NoneExtended(pos) && pos.indexBent && pos.middleBent && !pos.ringBent
    case 'O' => NoneExtended(pos) && pos.indexBent && pos.middleBent && pos.ringBent && pos.pinkyBent
    case 'P' => NoneExtended(pos) && pos.indexBent
    case 'Q' => NoneExtended(pos) && pos.indexBent && Abs(pos.thumbAngle) > 45.0
    case 'R' => IndexAndMiddleExtended(pos) && Abs(pos.indexX - pos.middleX) < 10.0
    case 'S' => NoneExtended(pos)
    case 'T' => NoneExtended(pos) && pos.indexBent
    case 'U' => IndexAndMiddleExtended(pos) && Abs(pos.indexX - pos.middleX) < 20.0
    case 'V' => IndexAndMiddleExtended(pos) && Abs(pos.indexX - pos.middleX) > 20.0
    case 'W' => pos.indexFinger && pos.middleFinger && pos.ringFinger && !pos.pinky
    case 'X' => NoneExtended(pos) && pos.indexBent
    case 'Y' => OnlyPinkyExtended(pos) && Abs(pos.thumbAngle) > 45.0
    case 'Z' => OnlyIndexExtended(pos) && Abs(pos.indexAngle) > 45.0
    case _ => false
  }

  /** The letters the chain can return, and the ones it never returns. */
  const LiveLetters: seq<char> := "ABDFHIKRUW"
  const DeadLetters: seq<char> := "CEGJLMNOPQSTVXYZ"

  /** The rule chain: the first rule, in alphabetical order, whose guard holds.
      Whatever it returns is a letter whose own guard holds and that comes no
      later than any other letter whose guard holds, or `'?'` when no guard
      holds, and it is never one of the sixteen dead letters. */
  function Classify(pos: Features): (letter: char)
    ensures letter == '?' || Guard(letter, pos)
    ensures letter == '?' ==> forall l :: !Guard(l, pos)
    ensures forall l :: Guard(l, pos) ==> letter != '?' && letter <= l
    ensures letter == '?' || letter in LiveLetters
  {
    if Guard('A', pos) then 'A'
    else if Guard('B', pos) then 'B'
    else if Guard('C', pos) then 'C'
    else if Guard('D', pos) then 'D'
    else if Guard('E', pos) then 'E'
    else if Guard('F', pos) then 'F'
    else if Guard('G', pos) then 'G'
    else if Guard('H', pos) then 'H'
    else if Guard('I', pos) then 'I'
    else if Guard('J', pos) then 'J'
    else if Guard('K', pos) then 'K'
    else if Guard('L', pos) then 'L'
    else if Guard('M', pos) then 'M'
    else if Guard('N', pos) then 'N'
    else if Guard('O', pos) then 'O'
    else if Guard('P', pos) then 'P'
    else if Guard('Q', pos) then 'Q'
    else if Guard('R', pos) then 'R'
    else if Guard('S', pos) then 'S'
    else if Guard('T', pos) then 'T'
    else if Guard('U', pos) then 'U'
    else if Guard('V', pos) then 'V'
    else if Guard('W', pos) then 'W'
    else if Guard('X', pos) then 'X'
    else if Guard('Y', pos) then 'Y'
    else if Guard('Z', pos) then 'Z'
    else '?'
  }

  /** The classifier of a whole hand: extract the features, then run the chain. */
  function PredictAslLetter(lm: Landmarks, atan2Degrees: Atan2Degrees): (letter: char)
    requires |lm| >= 21
    ensures letter == '?' || 'A' <= letter <= 'Z'
  {
    Classify(FingerPositions(lm, atan2Degrees))
  }

  /** The two-finger shape (index and middle up, ring and pinky down) is split
      by the index angle first, then by the distance between the two tips. */
  function TwoFingerLetter(pos: Features): char
  {
    var d := Abs(pos.indexX - pos.middleX);
    if Abs(pos.indexAngle) > 45.0 then 'H'
    else if d > 20.0 then 'K'
    else if d < 10.0 then 'R'
    else if d < 20.0 then 'U'
    else '?'
  }

  /** What the chain decides, as a table keyed on which of index, middle, ring
      and pinky are extended. The rows are disjoint, so their order is
      irrelevant; only the index bend, the index angle and the index-middle tip
      distance are ever consulted beyond the four flags. */
  function ShapeTable(pos: Features): char
  {
    match (pos.indexFinger, pos.middleFinger, pos.ringFinger, pos.pinky)
    case (false, false, false, false) => 'A'
    case (true, true, true, true) => 'B'
    case (true, false, false, false) => 'D'
    case (false, true, true, true) => if pos.indexBent then 'F' else '?'
    case (true, true, false, false) => TwoFingerLetter(pos)
    case (false, false, false, true) => 'I'
    case (true, true, true, false) => 'W'
    case _ => '?'
  }

  /** The ordered chain and the order-free table agree on every feature record. */
  lemma ClassifyIsShapeTable(pos: Features)
    ensures Classify(pos) == ShapeTable(pos)
  {
  }

  /** For each dead letter, the earlier rule whose guard is implied by its own. */
  function Shadow(letter: char): (earlier: char)
    requires letter in DeadLetters
    ensures earlier in LiveLetters && earlier < letter
  {
    if letter in "CEMNOPQSTX" then 'A'
    else if letter in "GLZ" then 'D'
    else if letter in "JY" then 'I'
    else 'K'
  }

  /** A dead letter's guard implies the guard of an earlier rule, so whenever
      it holds the chain stops at that rule or before it. */
  lemma ShadowedRule(letter: char, pos: Features)
    requires letter in DeadLetters
    requires Guard(letter, pos)
    ensures Guard(Shadow(letter), pos)
    ensures Classify(pos) != '?' && Classify(pos) <= Shadow(letter) < letter
  {
  }

  /** The dead rules are not dead because their guards are unsatisfiable:
      each one holds of some feature record. */
  lemma DeadRuleSatisfiable(letter: char)
    requires letter in DeadLetters
    ensures exists pos :: Guard(letter, pos)
  {
    var fist := Features(false, false, false, false, false, true, true, true, true,
                         0.0, 0.0, 0.0, 0.0, 90.0, 90.0);
    var point := fist.(indexFinger := true, thumbAngle := 0.0, indexAngle := -90.0);
    var pinky := fist.(pinky := true, thumbAngle := 90.0);
    var spread := fist.(indexFinger := true, middleFinger := true, middleX := 30.0);
    if letter in "CEMOPQSTX" {
      assert Guard(letter, fist);
    } else if letter == 'N' {
      assert Guard(letter, fist.(ringBent := false));
    } else if letter in "GLZ" {
      assert Guard(letter, point);
    } else if letter in "JY" {
      assert Guard(letter, pinky);
    } else {
      assert Guard(letter, spread);
    }
  }

  /** Exact outcomes of the one-shape letters, in both directions. */
  lemma SingleShapeLetters(pos: Features)
    ensures Classify(pos) == 'A' <==> NoneExtended(pos)
    ensures Classify(pos) == 'B' <==> pos.indexFinger && pos.middleFinger && pos.ringFinger && pos.pinky
    ensures Classify(pos) == 'D' <==> OnlyIndexExtended(pos)
    ensures Classify(pos) == 'I' <==> OnlyPinkyExtended(pos)
    ensures Classify(pos) == 'F' <==> !pos.indexFinger && pos.middleFinger && pos.ringFinger && pos.pinky && pos.indexBent
    ensures Classify(pos) == 'W' <==> pos.indexFinger && pos.middleFinger && pos.ringFinger && !pos.pinky
  {
  }

  /** The case split of the index-and-middle shape; 'V' shares K's guard and
      loses to it, and a tip distance of exactly 20 matches no rule. */
  lemma TwoFingerCases(pos: Features)
    requires IndexAndMiddleExtended(pos)
    ensures Abs(pos.indexAngle) > 45.0 ==> Classify(pos) == 'H'
    ensures Abs(pos.indexAngle) <= 45.0 && Abs(pos.indexX - pos.middleX) > 20.0 ==> Classify(pos) == 'K'
    ensures Abs(pos.indexAngle) <= 45.0 && Abs(pos.indexX - pos.middleX) < 10.0 ==> Classify(pos) == 'R'
    ensures Abs(pos.indexAngle) <= 45.0 && 10.0 <= Abs(pos.indexX - pos.middleX) < 20.0 ==> Classify(pos) == 'U'
    ensures Abs(pos.indexAngle) <= 45.0 && Abs(pos.indexX - pos.middleX) == 20.0 ==> Classify(pos) == '?'
  {
  }

  /** The letters H, K, R and U come only from the index-and-middle shape. */
  lemma TwoFingerLettersNeedTwoFingers(pos: Features)
    requires Classify(pos) in "HKRU"
    ensures IndexAndMiddleExtended(pos)
  {
  }

  /** The result depends on nothing but the four extended flags, the index
      bend, the index angle and the index-middle tip distance: the thumb flag,
      the thumb angle, the other bend flags and the ring and pinky tips are
      never decisive. */
  lemma DecidingFeatures(p: Features, q: Features)
    requires p.indexFinger == q.indexFinger && p.middleFinger == q.middleFinger
    requires p.ringFinger == q.ringFinger && p.pinky == q.pinky
    requires p.indexBent == q.indexBent && p.indexAngle == q.indexAngle
    requires p.indexX - p.middleX == q.indexX - q.middleX
    ensures Classify(p) == Classify(q)
  {
    ClassifyIsShapeTable(p);
    ClassifyIsShapeTable(q);
  }

  /** A hand whose landmarks all coincide has no finger up and reads as 'A'. */
  lemma CoincidentHandIsA(lm: Landmarks, atan2Degrees: Atan2Degrees)
    requires |lm| >= 21
    requires forall k :: 0 <= k < |lm| ==> lm[k] == lm[0]
    ensures PredictAslLetter(lm, atan2Degrees) == 'A'
  {
  }
}
