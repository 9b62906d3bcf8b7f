# Frushion front-end core, modelled in Dafny

Frushion is a beauty-analysis demo: a Next.js page of React cards around a
webcam feed, with a small Flask service that scores a face. This project
models the logic of five of its cards:

- **AnalysisCard** (`analysis_card.dfy`, module `Analysis`). The simulated skin
  analysis turns two random numbers into a skin tone and a texture reading
  (texture, elasticity, hydration). The card shows tips for those labels,
  can be reset, and saves an analysis by appending a record and producing a
  one-record CSV report.
- **FeatureIcons** (`feature_icons.dfy`, module `Filters`). Clicking a
  cosmetic-filter icon toggles its name in the list of selected filters, and
  the new list is posted to the filter service.
- **ExpressionCard** (`expression_card.dfy`, module `Expressions`). The face
  detector's expression scores for the first face are reduced to the dominant
  expression. That expression picks an emoji, a confidence message and an
  animation chosen by case-insensitive pattern tests.
- **FaceDisplay** (`face_display.dfy`, module `FaceOverlay`). The live overlay
  draws:
  - the bouncing scan line while no face is found;
  - for each detected face, its bounding box, colour, caption and five
    feature dots.

  It also covers the five-landmark request sent to the scoring service, and
  the status line, score and "no face" banner that follow each detector
  result and each scoring response.
- **TrendsCard** (`trends_card.dfy`, module `Trends`). The mock trend list is
  grouped into the AI, Eco and Style buckets, and the expand toggle shows the
  trends after the first two.

`text.dfy` (module `Text`) holds the JavaScript string behaviour the cards rely
on: `Array.prototype.join` and `String.prototype.split` with a one-character
separator, and the decimal rendering of a non-negative integer in a template
literal. `wrappers.dfy` holds `Option`.

Each component's React state is a Dafny `class` whose fields are the state
variables. Event handlers are methods that state the new state. The
decisions inside the handlers are functions, and their properties are lemmas.
Inputs from outside the component are method parameters:

- the random draws and the ISO timestamp;
- the face detectors' answers and the frame size;
- the scoring service's response;
- the number formatting of `toFixed(2)`.

## Model

| member | source | states |
|---|---|---|
| Analysis.SkinToneFor | src/components/AnalysisCard.tsx:66-78 | the tone is one of the five, and each tone is chosen exactly on its interval of `v` (below 0.4, [0.4,0.55), [0.55,0.7), [0.7,0.85), from 0.85) |
| Analysis.SkinToneMonotone | src/components/AnalysisCard.tsx:68-78 | a larger random value never gives a darker-ranked (lower) bucket |
| Analysis.TextureReadingFor | src/components/AnalysisCard.tsx:87-111 | each texture label holds exactly on its variance range; Oily is reached only at a variance of exactly 40; the reading is one of the six fixed triples |
| Analysis.ReadingDeterminedByTexture | src/components/AnalysisCard.tsx:87-111 | two readings with the same texture label have the same elasticity and hydration |
| Analysis.SkinToneTips | src/components/AnalysisCard.tsx:162-173 | one tip for each of the five tones, none for any other label |
| Analysis.TextureTips | src/components/AnalysisCard.tsx:175-184 | one tip for Very Smooth, Smooth, Oily and Dry, none otherwise (Normal and Acne-Prone get none) |
| Analysis.ElasticityTips | src/components/AnalysisCard.tsx:186-196 | two tips for High, Moderate and Low, none otherwise |
| Analysis.HydrationTips | src/components/AnalysisCard.tsx:198-209 | two tips for Optimal and Average, one for Good and Low, none otherwise (Very Low and High get none) |
| Analysis.TipCountAfterAnalysis | src/components/AnalysisCard.tsx:61-111 | after any analysis there are 3 to 6 tips: 6 exactly when the variance is below 10, 3 exactly when it is above 60 |
| Analysis.TipCountForReading | src/components/AnalysisCard.tsx:159-212 | any tone with any reading the classifier can produce gets between 3 and 6 tips |
| Analysis.NoTipsWithoutAnalysis | src/components/AnalysisCard.tsx:12-15 | with the initial "No analysis yet" labels no tip is shown |
| Analysis.HeaderJoin | src/components/AnalysisCard.tsx:143 | the header row joined with commas is the fixed header line |
| Analysis.JoinFive | src/components/AnalysisCard.tsx:146 | a five-field row is the fields with one comma between neighbours |
| Analysis.CsvReportText | src/components/AnalysisCard.tsx:142-147 | the report is the header line, a line break, and the record's five fields joined by commas, with no quoting |
| Analysis.CsvRoundTrip | src/components/AnalysisCard.tsx:142-147 | when no field holds a comma or line break, the report splits into the header line and one row, and the row splits back into the record's fields |
| Analysis.HeaderLineCsvSafe | src/components/AnalysisCard.tsx:143 | the header line has no line break |
| Analysis.RowSplits | src/components/AnalysisCard.tsx:144-146 | a row of comma- and newline-free fields has no line break and splits back into its fields |
| Analysis.JoinKeepsOut | src/components/AnalysisCard.tsx:146-147 | a character absent from every part and different from the separator is absent from the join |
| Analysis.SavedReportParses | src/components/AnalysisCard.tsx:132-147 | for any labels the card can hold and a timestamp without commas or line breaks, the saved report has two lines and its data line parses back into the record |
| Analysis.LabelsCsvSafe | src/components/AnalysisCard.tsx:12-15 | every label the card can hold is free of commas and line breaks |
| Analysis.NoAnalysisCsvSafe | src/components/AnalysisCard.tsx:12 | the unset label is free of commas and line breaks |
| Analysis.TonesCsvSafe | src/components/AnalysisCard.tsx:68-78 | each tone label is free of commas and line breaks |
| Analysis.ReadingsCsvSafe | src/components/AnalysisCard.tsx:87-111 | each label of each reading is free of commas and line breaks |
| Analysis.TexturesCsvSafe | src/components/AnalysisCard.tsx:88-108 | each texture label is free of commas and line breaks |
| Analysis.ElasticitiesCsvSafe | src/components/AnalysisCard.tsx:89-109 | each elasticity label is free of commas and line breaks |
| Analysis.HydrationsCsvSafe | src/components/AnalysisCard.tsx:90-110 | each hydration label is free of commas and line breaks |
| Analysis.AnalysisCard.constructor | src/components/AnalysisCard.tsx:10-17 | no saved analyses, all four labels "No analysis yet", neither flag set |
| Analysis.AnalysisCard.HandleAnalysis | src/components/AnalysisCard.tsx:61-116 | both flags set; the tone is the classifier's tone for `v` and the three labels are the reading for the variance; saved list unchanged; labels stay consistent |
| Analysis.AnalysisCard.FinishLoading | src/components/AnalysisCard.tsx:117-119 | the timer callback clears the loading flag and nothing else |
| Analysis.AnalysisCard.HandleReanalyze | src/components/AnalysisCard.tsx:123-129 | analyzing cleared, all four labels reset, loading flag and saved list unchanged |
| Analysis.AnalysisCard.HandleSaveAnalysis | src/components/AnalysisCard.tsx:132-147 | the current labels with the timestamp are appended to the saved list, and the downloaded text is that record's CSV report |
| Analysis.AnalysisCard.GenerateAITips | src/components/AnalysisCard.tsx:159-212 | the pushed tips are the tone tips, then texture, elasticity and hydration tips, for the current labels |
| Filters.Without | src/components/FeatureIcons.tsx:12 | removing a name leaves every other name present exactly as before and the removed name absent |
| Filters.WithoutAbsent | src/components/FeatureIcons.tsx:12 | removing a name that is not there changes nothing |
| Filters.WithoutConcat | src/components/FeatureIcons.tsx:12 | removal distributes over concatenation, so the relative order of the rest is kept |
| Filters.Toggle | src/components/FeatureIcons.tsx:10-13 | the clicked name is selected afterwards exactly when it was not before; every other name keeps its selection |
| Filters.ToggleAbsentAppends | src/components/FeatureIcons.tsx:13 | an unselected name is appended after the selected ones |
| Filters.ToggleSelectedRemoves | src/components/FeatureIcons.tsx:11-12 | a selected name is removed and the others stay in their order |
| Filters.ToggleTwiceRestores | src/components/FeatureIcons.tsx:9-15 | clicking an unselected icon twice restores the list |
| Filters.WithoutKeepsNoDuplicates | src/components/FeatureIcons.tsx:12 | removal keeps a duplicate-free list duplicate-free |
| Filters.TogglePreservesWellFormed | src/components/FeatureIcons.tsx:4-13 | clicking an icon keeps the list free of duplicates and made of icon names |
| Filters.ClicksKeepWellFormed | src/components/FeatureIcons.tsx:4-15 | any sequence of icon clicks keeps the list free of duplicates and made of icon names |
| Filters.FeatureIcons.constructor | src/components/FeatureIcons.tsx:7 | nothing is selected at first |
| Filters.FeatureIcons.ToggleFilter | src/components/FeatureIcons.tsx:9-22 | the new list is the toggled old list, the posted body carries exactly that list, and a well-formed list stays well formed |
| Expressions.DominantIndex | src/components/ExpressionCard.tsx:57-59 | the reduce ends on a key of maximum probability with no later key as large (the last of the maxima on a tie) |
| Expressions.DominantIndexUnique | src/components/ExpressionCard.tsx:57-59 | that characterisation picks one index only: any index with both properties is the reduce's result |
| Expressions.Dominant | src/components/ExpressionCard.tsx:56-59 | no dominant entry exactly for an empty map (where the reduce throws); otherwise an entry of greatest probability that no later entry equals, the reduce's last-wins choice |
| Expressions.EmojiFor | src/components/ExpressionCard.tsx:75-84 | the thinking face exactly for a name outside the five known expressions |
| Expressions.EmojiDistinguishesKnown | src/components/ExpressionCard.tsx:76-83 | each known expression has an emoji no other name gets |
| Expressions.Lower | src/components/ExpressionCard.tsx:87-89 | same length, each character ASCII-lowered (the `i` flag) |
| Expressions.ContainsIffOccurs | src/components/ExpressionCard.tsx:87-89 | the regular-expression test succeeds exactly when the pattern occurs at some offset |
| Expressions.AnimationFor | src/components/ExpressionCard.tsx:86-91 | never idle; bounce exactly when happy or smile occurs; pulse exactly when neither does and sad, cry or down does; wiggle exactly when none of those occurs and angry, mad or frustrated does; neutral exactly when no pattern occurs |
| Expressions.LowerIdempotent | src/components/ExpressionCard.tsx:87-89 | lowering twice is lowering once |
| Expressions.AnimationIgnoresCase | src/components/ExpressionCard.tsx:87-90 | the animation does not depend on letter case |
| Expressions.MissingCharNotContained | src/components/ExpressionCard.tsx:87-89 | a pattern with a character the mood lacks does not match it |
| Expressions.LowerOfLowercase | src/components/ExpressionCard.tsx:87-89 | a string without capital letters is its own lower case |
| Expressions.DetectorExpressionsAnimation | src/components/ExpressionCard.tsx:76-90 | of the five expressions with an emoji, happy bounces, sad pulses, angry wiggles, surprised and neutral are neutral |
| Expressions.HappyBounces | src/components/ExpressionCard.tsx:87 | "happy" bounces |
| Expressions.SadPulses | src/components/ExpressionCard.tsx:88 | "sad" pulses |
| Expressions.AngryWiggles | src/components/ExpressionCard.tsx:89 | "angry" wiggles |
| Expressions.SurprisedIsNeutral | src/components/ExpressionCard.tsx:90 | "surprised" falls through to neutral |
| Expressions.MatchesItself | src/components/ExpressionCard.tsx:87-89 | a lower-case name matches itself as a pattern |
| Expressions.Unmatched | src/components/ExpressionCard.tsx:87-89 | a pattern with a letter a lower-case mood lacks does not match it |
| Expressions.FallsThrough | src/components/ExpressionCard.tsx:86-91 | a lower-case mood lacking some letter of each of the eight patterns gets the neutral animation |
| Expressions.NeutralIsNeutral | src/components/ExpressionCard.tsx:90 | "neutral" falls through to neutral |
| Expressions.ExpressionCard.constructor | src/components/ExpressionCard.tsx:5-9 | empty expression and message, thinking emoji, not loading, idle |
| Expressions.ExpressionCard.OnCameraError | src/components/ExpressionCard.tsx:35-37 | the camera error message is shown |
| Expressions.ExpressionCard.TriggerAnimation | src/components/ExpressionCard.tsx:86-91 | the animation state becomes the one the rules pick for the mood |
| Expressions.ExpressionCard.CaptureAndAnalyzeFrame | src/components/ExpressionCard.tsx:44-68 | no face: "No face detected", thinking emoji, "Unable to detect face", animation kept; an empty expression map throws and changes nothing; otherwise expression, emoji, confidence message and animation all follow the dominant entry |
| FaceOverlay.ScanStep | src/components/FaceDisplay.tsx:63-73 | the line moves 2 pixels in its direction and turns exactly when it reaches the far edge (bottom going down, top going up) |
| FaceOverlay.ScanStepKeepsBand | src/components/FaceDisplay.tsx:67-73 | one frame keeps the line in its band (going down: between -2 and the height; going up: between 0 and the height plus 2) |
| FaceOverlay.ScanBandForever | src/components/FaceDisplay.tsx:67-73 | any number of frames on a fixed-height canvas keeps the line in its band |
| FaceOverlay.ScanStaysNearCanvas | src/components/FaceDisplay.tsx:63-73 | started on the canvas, the line never leaves it by more than one step |
| FaceOverlay.MinOfIsLeast | src/components/FaceDisplay.tsx:39-42 | `Math.min` of a non-empty list is one of its values and no value is below it |
| FaceOverlay.MaxOfIsGreatest | src/components/FaceDisplay.tsx:39-42 | `Math.max` of a non-empty list is one of its values and no value is above it |
| FaceOverlay.FaceBox | src/components/FaceDisplay.tsx:36-47 | a face has a box exactly when it has landmarks |
| FaceOverlay.FaceBoxBounds | src/components/FaceDisplay.tsx:36-47 | the box has no negative side, contains every scaled landmark, and each of its four edges passes through one |
| FaceOverlay.Span | src/components/FaceDisplay.tsx:39-42 | every value lies between the minimum and maximum, both of which are attained |
| FaceOverlay.HorizontalSpan | src/components/FaceDisplay.tsx:36-42 | the scaled x coordinates lie between their minimum and maximum, both attained |
| FaceOverlay.VerticalSpan | src/components/FaceDisplay.tsx:36-42 | the scaled y coordinates lie between their minimum and maximum, both attained |
| FaceOverlay.FaceColor | src/components/FaceDisplay.tsx:44 | a face's colour is one of the five colours |
| FaceOverlay.FaceColorCycle | src/components/FaceDisplay.tsx:44 | two faces share a colour exactly when their indices agree modulo 5 |
| FaceOverlay.FaceLabelNumber | src/components/FaceDisplay.tsx:51 | a caption is "Face " followed by the decimal numeral of the index plus one |
| FaceOverlay.FaceLabelsDistinct | src/components/FaceDisplay.tsx:51 | different faces get different captions |
| FaceOverlay.FeatureDots | src/components/FaceDisplay.tsx:55-58 | the dots are the left eye, right eye, nose, mouth-left and mouth-right landmarks (33, 263, 1, 61, 291) scaled to the canvas, in that order |
| FaceOverlay.MeshOverlay | src/components/FaceDisplay.tsx:54-61 | a face gets its complete overlay exactly when it has all five feature landmarks; the overlay has those dots, the face's box, the colour and caption of its index, and the caption sits 4 px right of and 8 px above the box corner |
| FaceOverlay.DotsUntilMissing | src/components/FaceDisplay.tsx:55-58 | the dots drawn are the scaled landmarks of the longest leading run of indices the face has, in order, stopping at the first index it lacks |
| FaceOverlay.DotsOfCompleteFace | src/components/FaceDisplay.tsx:55-58 | a face with every feature landmark gets all five feature dots |
| FaceOverlay.DotsBeforeThrow | src/components/FaceDisplay.tsx:55-58 | a face lacking a feature landmark gets no dot up to 33 landmarks, the left-eye dot alone up to 263, and four dots up to 291 |
| FaceOverlay.DrawnCount | src/components/FaceDisplay.tsx:163-165 | drawing covers a prefix of the faces, all with features, and stops at the first face without them |
| FaceOverlay.OverlayOfFace | src/components/FaceDisplay.tsx:163-165 | the k-th overlay drawn is the overlay of face k with index k |
| FaceOverlay.OverlaysLength | src/components/FaceDisplay.tsx:163-165 | one overlay per drawn face |
| FaceOverlay.DrawMeshes | src/components/FaceDisplay.tsx:163-165 | the loop draws the complete overlays of the faces before the first one without every feature landmark, and then that face's leading dots |
| FaceOverlay.ScoreRequestFor | src/components/FaceDisplay.tsx:90-97 | a request exists exactly when the face has all feature landmarks, and it holds their (x, y) pairs in the order left eye, right eye, nose, mouth left, mouth right |
| FaceOverlay.RequestsPassServiceCheck | Backend/app.py:43-47 | every request the overlay sends carries at least the five points the service demands |
| FaceOverlay.AfterScore | src/components/FaceDisplay.tsx:108-123 | a failed fetch clears the score and shows the banner with the fetch error; an error answer clears the score and shows the banner with its text; a score answer shows the score and hides the banner; an answer with neither changes nothing |
| FaceOverlay.AfterScoreConsistent | src/components/FaceDisplay.tsx:110-123 | the banner is never shown beside a score, and after an answer with an error or score exactly one of them is visible |
| FaceOverlay.FaceCountStatusReadable | src/components/FaceDisplay.tsx:162 | the status line begins with the decimal numeral of the face count, followed by " face(s) detected." |
| FaceOverlay.FaceDisplay.constructor | src/components/FaceDisplay.tsx:8-15 | scan line at 0 going down, no landmarks, "Initializing camera...", score "Analyzing...", no banner |
| FaceOverlay.FaceDisplay.OnCameraError | src/components/FaceDisplay.tsx:186-189 | the camera error status is shown |
| FaceOverlay.FaceDisplay.DrawScanningLine | src/components/FaceDisplay.tsx:63-73 | the scan line advances one frame |
| FaceOverlay.FaceDisplay.FetchScore | src/components/FaceDisplay.tsx:83-124 | with no stored face: nothing sent, score cleared, "No face landmarks available."; a first face without features throws and nothing changes; otherwise its five landmarks are sent and the display follows the outcome; the banner is never shown beside a score |
| FaceOverlay.FaceDisplay.OnResults | src/components/FaceDisplay.tsx:146-171 | with faces: they are stored, the status counts them, their overlays are drawn in order and the face that stops the drawing leaves its leading dots; without: stored faces forgotten, "No face detected. Please center your face.", one scan-line frame, score cleared, nothing drawn; the banner is untouched |
| Text.Split | src/components/AnalysisCard.tsx:142-147 | splitting gives at least one piece and no piece contains the separator |
| Text.JoinSplit | src/components/AnalysisCard.tsx:146-147 | joining the pieces of a split gives back the text |
| Text.SplitJoin | src/components/AnalysisCard.tsx:146-147 | splitting a join gives back the parts when no part contains the separator |
| Text.SplitWithoutSep | src/components/AnalysisCard.tsx:146-147 | text without the separator splits into itself alone |
| Text.SplitAtFirstSep | src/components/AnalysisCard.tsx:146-147 | a split starts with the piece before the first separator |
| Text.NatToString | src/components/FaceDisplay.tsx:51 | a rendered number is a non-empty run of digits with no leading zero unless it is 0 |
| Text.NatToStringRoundTrip | src/components/FaceDisplay.tsx:51 | reading a rendered number back gives the number |
| Text.NatToStringInjective | src/components/FaceDisplay.tsx:51 | different numbers render differently |
| Trends.ByCategory | src/components/TrendsCard.tsx:65-67 | a bucket holds exactly the trends of its category and is no longer than the list |
| Trends.ByCategoryConcat | src/components/TrendsCard.tsx:65-67 | filtering distributes over concatenation, so a bucket keeps the list's order |
| Trends.BucketsDisjoint | src/components/TrendsCard.tsx:64-68 | no trend is in two buckets, and a trend of another category is in none |
| Trends.BucketTotalCounts | src/components/TrendsCard.tsx:64-68 | the buckets together hold at most every trend, and all of them exactly when every category is AI, Eco or Style |
| Trends.Expanded | src/components/TrendsCard.tsx:104 | the expanded view is the list after its first two trends, empty for a shorter list |
| Trends.ExpandedRestores | src/components/TrendsCard.tsx:104 | the first two trends followed by the expanded view are the whole list |
| Trends.MockTrendsLayout | src/components/TrendsCard.tsx:9-38 | the mock data gives one AI trend, two Eco trends in order and one Style trend, and expanding shows its last two |
| Trends.FourTrendsLayout | src/components/TrendsCard.tsx:64-68 | four trends of categories AI, Eco, Style, Eco fall into the buckets [a], [b, d], [c], and expanding shows [c, d] |
| Trends.TrendsCard.constructor | src/components/TrendsCard.tsx:44-46 | no trends, collapsed, loading |
| Trends.TrendsCard.View | src/components/TrendsCard.tsx:61-104 | the loading message exactly while loading; otherwise the three buckets of the list, plus the trends after the first two when expanded and no extra trend when collapsed |
| Trends.TrendsCard.LoadTrends | src/components/TrendsCard.tsx:50-54 | the mock trends are stored and loading ends |
| Trends.TrendsCard.ToggleExpansion | src/components/TrendsCard.tsx:59 | the expanded flag flips |
| Trends.ToggleTwiceRestores | src/components/TrendsCard.tsx:59 | two clicks leave the card as it was |

## Left out

- Camera access, face-detector and model loading, script injection, timers
  (`setTimeout`, `setInterval`, `requestAnimationFrame`) and the event
  wiring are left out. Their results enter as parameters: the random draws,
  the detector results, the frame size and the scoring outcome.
- Canvas drawing calls (`arc`, `strokeRect`, `fillText`, `moveTo`/`lineTo`,
  `drawImage`) and face-api's drawing helpers are left out. Each drawn face is
  modelled as an `Overlay` value that records what would be drawn.
- `Math.random`, `new Date().toISOString()` and `toFixed(2)` are parameters. The
  timestamp is any string and the confidence text is any function of the
  probability.
- Floating-point arithmetic is modelled with exact reals. Thresholds are
  exact decimals and scaled coordinates are exact products.
- `fetch` and network failures are modelled as one `ScoreOutcome`.
  Interleaved responses and the order in which React applies state updates
  are not modelled. The request to `/apply-filters` is returned, and its
  failure is ignored, as the component ignores it.
- The scoring service's numerics (`Backend/`) are not part of this model,
  apart from its landmark-count check. The answer's `error` and `score`
  fields are modelled as optional strings, which is what the service sends.
- JSX rendering is not modelled: charts, spinners, icons, `alert` of the
  saved list, `showMore` and the saved-file download through `saveAs`. For
  the download, only the CSV text is modelled.
- The other components (`Header`, `CameraToggle`, `LiveAnalysis`,
  `ScoreDisplay`), `src/app`, `src/api/trends.js` and the Tailwind
  configuration are not part of this model.
- FaceDisplay's `cameraStarted` and `analyzing` flags are set around the
  calls rather than by them, and are not modelled. The same goes for
  ExpressionCard's `loading` flag, which is never set, and the early returns
  on missing video, canvas or context refs.
- A detector result whose `multiFaceLandmarks` is undefined is treated like
  an empty list.
- FaceOverlay.FaceBox: an empty landmark list gives no box. In the source,
  `Math.min` of nothing is `Infinity`, and that box is never reached,
  because drawing first reads landmark 33.
- FaceOverlay.ScanBandForever: the band is stated for a canvas whose height
  stays fixed over the frames. The canvas is resized to each frame's video
  height, so a shrinking video can leave the line outside the band.
- The `icon` element of each trend is not modelled.
- FaceOverlay.FaceDisplay.OnResults: the TypeError raised by the face that
  stops the drawing escapes the detector callback. The model returns
  normally with what was drawn and with the state set before the drawing.
  What the detector library does with that exception is not modelled.
