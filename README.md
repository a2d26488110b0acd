# SpeakEasy hand-sign classifier in Dafny

SpeakEasy is a browser application that turns sign language, lip movement or
speech into text. Its only part with real logic is the fingerspelling
classifier in `src/main_menu.js`. A hand detector reports 21 landmarks per hand.
From them the classifier extracts a record of finger features: which fingers
are extended or bent, where the fingertips are, and two angles. It then runs 26
hand-written rules in alphabetical order and returns the first letter whose
rule matches, or `?` if none matches. Around the classifier there are two small
helpers. One appends each predicted letter to a transcript, skipping repeats.
The other computes the box drawn around the hand.

The model is four modules, all pure functions and lemmas, as the source is:

- `HandFeatures` (`hand_features.dfy`): landmarks, the feature record, `FingerIsOpen` and `FingerPositions`.
- `AslClassifier` (`asl_classifier.dfy`): the rule guards, the ordered chain `Classify`, the whole-hand `PredictAslLetter`, and an order-free decision table `ShapeTable`. The lemmas prove the chain equals that table.
- `Transcript` (`transcript.dfy`): the debounce updater, prediction events, and replay of a stream of predictions.
- `BoundingBox` (`bounding_box.dfy`): min/max over coordinates and the box.

Coordinates are `real`. The angle is `Math.atan2(dy, dx) * 180 / Math.PI`, and
it is a parameter of type `(real, real) -> real`, so every result holds for any
angle function. A prediction is modelled as its letter alone (`char`). The
source returns `{ letter }` and nothing more.

What the chain actually decides (lemma `ClassifyIsShapeTable`):

| index, middle, ring, pinky extended | letter |
|---|---|
| none | A |
| all four | B |
| index only | D |
| middle, ring, pinky, with the index bent | F (otherwise `?`) |
| index and middle | H if the index angle exceeds 45°; otherwise K if the tip distance exceeds 20, R if it is under 10, U if it is under 20, `?` at exactly 20 |
| pinky only | I |
| index, middle, ring | W |
| any other pattern | `?` |

Sixteen letters can never be returned: C E G J L M N O P Q S T V X Y Z. Each of
their guards implies the guard of an earlier rule. For C, E, M, N, O, P, Q, S, T
and X that rule is A. For G, L and Z it is D. For J and Y it is I. For V it is K,
whose guard is the same as V's.

A result carries only its letter; no rule attaches a confidence score.

Because the rules are tried in alphabetical order and the first match wins:

- A closed fist gives `A` whatever its bends, never `S`. So does a hand whose landmarks all coincide.
- With index and middle up, ring and pinky down, and an index angle of at most 45°, a tip distance of exactly 10 gives `U`.
- With index and middle up, ring and pinky down, and an index angle of at most 45°, a tip distance of 25 gives `K`.
- A lone index finger gives `D` whatever its angle.

## Model

| member | source | states |
|---|---|---|
| HandFeatures.FingerPositions | src/main_menu.js:144-198 | each extended flag is "tip y < base y" for landmarks 4/1, 8/5, 12/9, 16/13, 20/17 and equals `FingerIsOpen` on that finger's indices; each bent flag is "third landmark y < tip y" (7/8, 11/12, 15/16, 19/20; none for the thumb); the x values are the four fingertips' x; the angles are the angle function applied to tip minus base for the thumb and index |
| HandFeatures.FeaturesAreLocal | src/main_menu.js:150-198 | the record reads only the listed y and x coordinates: two hands agreeing there (whatever the wrist, the depth, the second joints) give equal records |
| HandFeatures.CoincidentLandmarks | src/main_menu.js:174-196 | a hand whose landmarks all coincide has no extended or bent finger and both angles equal the angle of the zero vector |
| AslClassifier.Classify | src/main_menu.js:200-353 | the result is `?` or a letter whose own rule guard holds; it is `?` only when no rule's guard holds; when some guard holds, the result comes no later in the alphabet than any letter whose guard holds (first match); and it is always one of A B D F H I K R U W or `?` |
| AslClassifier.PredictAslLetter | src/main_menu.js:200-354 | for any 21-landmark hand and any angle function the result is a letter A–Z or `?` |
| AslClassifier.ClassifyIsShapeTable | src/main_menu.js:203-353 | the ordered first-match chain equals the order-free table above on every feature record |
| AslClassifier.Shadow | src/main_menu.js:203-351 | the shadowing table that `ShadowedRule` proves correct: every dead letter is assigned a live letter earlier in the alphabet |
| AslClassifier.ShadowedRule | src/main_menu.js:203-351 | whenever a dead letter's guard holds, the guard of its earlier shadowing rule (A, D, I or K) holds too, and the chain returns a letter no later than that rule's, never the dead letter |
| AslClassifier.DeadRuleSatisfiable | src/main_menu.js:213-351 | every dead letter's guard holds of some feature record, so the letter is dead only because of the rule order |
| AslClassifier.SingleShapeLetters | src/main_menu.js:203-251 | result is A iff no finger up, B iff all four, D iff index only, I iff pinky only, F iff middle/ring/pinky up with the index down and bent, W iff index/middle/ring up and pinky down |
| AslClassifier.TwoFingerCases | src/main_menu.js:242-328 | index and middle up, ring and pinky down: H when the index angle exceeds 45°, else K above 20, R below 10, U from 10 up to below 20, `?` at exactly 20 |
| AslClassifier.TwoFingerLettersNeedTwoFingers | src/main_menu.js:242-328 | H, K, R and U are returned only for the index-and-middle shape |
| AslClassifier.DecidingFeatures | src/main_menu.js:200-353 | two records that agree on the four extended flags, the index bend, the index angle and the index-middle tip difference classify alike: the thumb flag, thumb angle, other bends and ring/pinky tips never decide the letter |
| AslClassifier.CoincidentHandIsA | src/main_menu.js:150-206 | a hand whose landmarks all coincide is classified as A |
| Transcript.UpdateTranscript | src/main_menu.js:795-801 | the old transcript is a prefix of the new one, which is at most one longer; the letter is appended exactly when the transcript is empty or ends in a different character, otherwise nothing changes; the new transcript ends in the letter; no adjacent repeats is preserved |
| Transcript.HandlePrediction | src/main_menu.js:792-803 | an event with no prediction leaves the transcript unchanged; one with a letter either leaves it unchanged (exactly when it already ends in that letter) or appends exactly that letter, as the updater does; no adjacent repeats is preserved |
| Transcript.ReplayKeepsNoRepeats | src/main_menu.js:795-801 | after any stream of predictions a repeat-free transcript stays repeat-free, is only extended, and grows by at most the stream's length |
| Transcript.ReplayIsCollapse | src/main_menu.js:795-801 | from a repeat-free transcript, replaying a stream gives the old transcript plus the stream with every run of equal characters collapsed to one |
| Transcript.TranscriptFromEmpty | src/main_menu.js:795-801 | the transcript built from empty is exactly the prediction stream with runs collapsed, and has no adjacent repeats |
| BoundingBox.MinOf | src/main_menu.js:611-614 | the minimum is one of the values and no value is below it |
| BoundingBox.MaxOf | src/main_menu.js:613-614 | the maximum is one of the values and no value is above it |
| BoundingBox.GetBoundingBox | src/main_menu.js:607-616 | width and height are non-negative, every landmark lies inside the box, and each of the four edges is attained by some landmark (the helpers `Xs` and `Ys` are the two `map`s at 608-609, `MinOf` and `MaxOf` the `Math.min`/`Math.max` calls) |
| BoundingBox.BoundingBoxIsSmallest | src/main_menu.js:607-616 | every box that contains all landmarks encloses the computed box |

## Left out

- Camera and stream setup, loading the hand model, `estimateHands`, the one-second polling interval, the `isLoading` guard and canvas drawing (src/main_menu.js:561-605, 618-696): browser I/O, asynchronous work and a foreign ML model.
- The numerics of `Math.atan2` and the degree conversion (src/main_menu.js:168-172): floating-point trigonometry, replaced by an arbitrary angle function parameter.
- Floating point in general: coordinates are exact reals, so NaN, infinities and rounding are not modelled.
- BoundingBox.GetBoundingBox: requires at least one landmark. With none, JavaScript's `Math.min()`/`Math.max()` give infinities, which `real` cannot represent. The caller always passes a detected hand's 21 landmarks.
- HandFeatures.FingerPositions: requires at least 21 landmarks. With fewer, the JavaScript lookup throws, and that error path is not modelled.
- Practice mode (src/main_menu.js:440-477): depends on `Math.random` and timers.
- Speech recognition and its transcript concatenation (src/main_menu.js:753-790, main_menuPspeechtotextdone.js): thin wrappers over the Web Speech API.
- Static tables and rendering (`ASL_TIPS`, `EMERGENCY_PHRASES`, `DIFFICULTY_LEVELS`, JSX), src/home.js and src/App.js: no logic.
- Lip and face detection (src/components/LipReadingComponent.js, src/components/CameraComponent.js, src/mouth_detection.js, src/lipreading_inference.js, src/face-api.js): detector calls and drawing.
- React state: the transcript updater is modelled as the pure function passed to the state setter, so the setter's scheduling is not modelled.
