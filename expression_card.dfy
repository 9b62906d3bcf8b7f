/** The expression widget of `ExpressionCard`: the detector's expression
    scores for the first face are reduced to the dominant expression, which
    picks an emoji and an animation. The detector's output is a parameter. */
module Expressions {
  import opened Wrappers

  /** One entry of the detector's expression map, in key order. */
  datatype ExpressionScore = ExpressionScore(name: string, probability: real)

  /** One detected face with its expression map. */
  datatype Detection = Detection(expressions: seq<ExpressionScore>)

  /** The index the reduce `(a, b) => e[a] > e[b] ? a : b` ends on: the
      accumulator is kept only when strictly larger, so on a tie the later
      key wins. */
  function DominantIndex(expressions: seq<ExpressionScore>): (i: nat)
    requires |expressions| > 0
    ensures i < |expressions|
    ensures forall j :: 0 <= j < |expressions| ==> expressions[j].probability <= expressions[i].probability
    ensures forall j :: i < j < |expressions| ==> expressions[j].probability < expressions[i].probability
  {
    var n := |expressions|;
    if n == 1 then 0
    else
      var a := DominantIndex(expressions[..n - 1]);
      if expressions[a].probability > expressions[n - 1].probability then a else n - 1
  }

  /** The reduce's two properties single out one index: the last that
      attains the maximum. */
  lemma DominantIndexUnique(expressions: seq<ExpressionScore>, k: nat)
    requires k < |expressions|
    requires forall j :: 0 <= j < |expressions| ==> expressions[j].probability <= expressions[k].probability
    requires forall j :: k < j < |expressions| ==> expressions[j].probability < expressions[k].probability
    ensures k == DominantIndex(expressions)
  {
  }

  /** The dominant entry: `None` for an empty map, on which a reduce
      without an initial value throws; otherwise an entry of greatest
      probability that no later entry equals. */
  function Dominant(expressions: seq<ExpressionScore>): (r: Option<ExpressionScore>)
    ensures r.None? <==> expressions == []
    ensures r.Some? ==>
              exists i :: 0 <= i < |expressions| && expressions[i] == r.value
                && (forall j :: 0 <= j < |expressions| ==> expressions[j].probability <= r.value.probability)
                && (forall j :: i < j < |expressions| ==> expressions[j].probability < r.value.probability)
  {
    if expressions == [] then None else Some(expressions[DominantIndex(expressions)])
  }

  /** The fallback emoji. */
  const Thinking := "🤔"

  /** The five expressions with an emoji of their own. */
  const KnownExpressions: set<string> := {"happy", "sad", "angry", "surprised", "neutral"}

  function EmojiFor(expression: string): (emoji: string)
    ensures emoji == Thinking <==> expression !in KnownExpressions
  {
    match expression
    case "happy" => "😊"
    case "sad" => "😢"
    case "angry" => "😡"
    case "surprised" => "😲"
    case "neutral" => "😐"
    case _ => Thinking
  }

  /** Each of the five expressions gets an emoji no other string gets. */
  lemma EmojiDistinguishesKnown(a: string, b: string)
    requires a in KnownExpressions && a != b
    ensures EmojiFor(a) != EmojiFor(b)
  {
  }

  /** ASCII lower-casing: the case folding a non-Unicode `/i` regular
      expression applies to the ASCII letters of these patterns. */
  function LowerChar(c: char): char
  {
    if 'A' <= c <= 'Z' then (c as int + 32) as char else c
  }

  function Lower(s: string): (r: string)
    ensures |r| == |s|
    ensures forall i :: 0 <= i < |s| ==> r[i] == LowerChar(s[i])
  {
    seq(|s|, i requires 0 <= i < |s| => LowerChar(s[i]))
  }

  /** `pattern` occurs in `s` as a contiguous piece. */
  predicate Contains(s: string, pattern: string)
    decreases |s|
  {
    pattern <= s || (|s| > 0 && Contains(s[1..], pattern))
  }

  /** `pattern` sits in `s` starting at offset `k`. */
  predicate OccursAt(s: string, pattern: string, k: int)
  {
    0 <= k <= |s| - |pattern| && s[k..k + |pattern|] == pattern
  }

  /** `Contains` means an occurrence at some offset. */
  lemma {:induction false} ContainsIffOccurs(s: string, pattern: string)
    ensures Contains(s, pattern) <==> exists k :: OccursAt(s, pattern, k)
    decreases |s|
  {
    if pattern <= s {
      assert OccursAt(s, pattern, 0);
    }
    if |s| > 0 {
      ContainsIffOccurs(s[1..], pattern);
      if Contains(s[1..], pattern) {
        var k :| OccursAt(s[1..], pattern, k);
        assert s[k + 1..k + 1 + |pattern|] == s[1..][k..k + |pattern|];
        assert OccursAt(s, pattern, k + 1);
      }
      if exists k :: OccursAt(s, pattern, k) {
        var k :| OccursAt(s, pattern, k);
        if k > 0 {
          assert s[1..][k - 1..k - 1 + |pattern|] == s[k..k + |pattern|];
          assert OccursAt(s[1..], pattern, k - 1);
        } else {
          assert pattern <= s;
        }
      }
    } else if exists k :: OccursAt(s, pattern, k) {
      var k :| OccursAt(s, pattern, k);
      assert pattern == [];
    }
  }

  /** `/pattern/i.test(mood)` for a lower-case pattern. */
  predicate Matches(mood: string, pattern: string)
  {
    Contains(Lower(mood), pattern)
  }

  /** The card's animation state; `Idle` until the first detection. */
  datatype Animation = Idle | Bounce | Pulse | Wiggle | Neutral

  /** The first rule whose pattern occurs in the mood decides. */
  function AnimationFor(mood: string): (a: Animation)
    ensures a != Idle
    ensures a == Bounce <==> Matches(mood, "happy") || Matches(mood, "smile")
    ensures a == Pulse <==> !(Matches(mood, "happy") || Matches(mood, "smile"))
                            && (Matches(mood, "sad") || Matches(mood, "cry") || Matches(mood, "down"))
    ensures a == Wiggle <==> !(Matches(mood, "happy") || Matches(mood, "smile"))
                             && !(Matches(mood, "sad") || Matches(mood, "cry") || Matches(mood, "down"))
                             && (Matches(mood, "angry") || Matches(mood, "mad") || Matches(mood, "frustrated"))
    ensures a == Neutral <==> !(Matches(mood, "happy") || Matches(mood, "smile"))
                              && !(Matches(mood, "sad") || Matches(mood, "cry") || Matches(mood, "down"))
                              && !(Matches(mood, "angry") || Matches(mood, "mad") || Matches(mood, "frustrated"))
  {
    if Matches(mood, "happy") || Matches(mood, "smile") then Bounce
    else if Matches(mood, "sad") || Matches(mood, "cry") || Matches(mood, "down") then Pulse
    else if Matches(mood, "angry") || Matches(mood, "mad") || Matches(mood, "frustrated") then Wiggle
    else Neutral
  }

  lemma {:induction false} LowerIdempotent(s: string)
    ensures Lower(Lower(s)) == Lower(s)
  {
  }

  /** The animation does not depend on letter case. */
  lemma AnimationIgnoresCase(mood: string)
    ensures AnimationFor(Lower(mood)) == AnimationFor(mood)
  {
    LowerIdempotent(mood);
  }

  /** A pattern with a character the string lacks does not occur in it. */
  lemma {:induction false} MissingCharNotContained(s: string, pattern: string, c: char)
    requires c in pattern && c !in s
    ensures !Contains(s, pattern)
    decreases |s|
  {
    if |s| > 0 {
      MissingCharNotContained(s[1..], pattern, c);
    }
  }

  predicate NoCapitals(s: string)
  {
    forall i :: 0 <= i < |s| ==> !('A' <= s[i] <= 'Z')
  }

  lemma LowerOfLowercase(s: string)
    requires NoCapitals(s)
    ensures Lower(s) == s
  {
  }

  /** A lower-case mood contains itself, so its own pattern matches it. */
  lemma MatchesItself(mood: string)
    requires NoCapitals(mood)
    ensures Matches(mood, mood)
  {
    LowerOfLowercase(mood);
  }

  /** A pattern with a character a lower-case mood lacks does not match it. */
  lemma Unmatched(mood: string, pattern: string, c: char)
    requires NoCapitals(mood)
    requires c in pattern && c !in mood
    ensures !Matches(mood, pattern)
  {
    LowerOfLowercase(mood);
    MissingCharNotContained(mood, pattern, c);
  }

  /** A lower-case mood lacking some letter of each of the eight patterns
      matches no rule, so it is neutral. */
  lemma FallsThrough(mood: string, happy: char, smile: char, sad: char, cry: char, down: char,
                     angry: char, mad: char, frustrated: char)
    requires NoCapitals(mood)
    requires happy in "happy" && happy !in mood && smile in "smile" && smile !in mood
    requires sad in "sad" && sad !in mood && cry in "cry" && cry !in mood && down in "down" && down !in mood
    requires angry in "angry" && angry !in mood && mad in "mad" && mad !in mood
    requires frustrated in "frustrated" && frustrated !in mood
    ensures AnimationFor(mood) == Neutral
  {
    Unmatched(mood, "happy", happy);
    Unmatched(mood, "smile", smile);
    Unmatched(mood, "sad", sad);
    Unmatched(mood, "cry", cry);
    Unmatched(mood, "down", down);
    Unmatched(mood, "angry", angry);
    Unmatched(mood, "mad", mad);
    Unmatched(mood, "frustrated", frustrated);
  }

  /** The names the detector gives its expressions animate as the emoji
      suggests: happy bounces, sad pulses, angry wiggles, the rest are
      neutral. */
  lemma DetectorExpressionsAnimation()
    ensures AnimationFor("happy") == Bounce
    ensures AnimationFor("sad") == Pulse
    ensures AnimationFor("angry") == Wiggle
    ensures AnimationFor("surprised") == Neutral
    ensures AnimationFor("neutral") == Neutral
  {
    HappyBounces("happy");
    SadPulses("sad");
    AngryWiggles("angry");
    SurprisedIsNeutral("surprised");
    NeutralIsNeutral("neutral");
  }

  // The names below are held in variables rather than written as literals,
  // which keeps the verifier from unfolding the pattern search on them.

  lemma HappyBounces(happy: string)
    requires happy == "happy"
    ensures AnimationFor(happy) == Bounce
  {
    MatchesItself(happy);
  }

  lemma SadPulses(sad: string)
    requires sad == "sad"
    ensures AnimationFor(sad) == Pulse
  {
    MatchesItself(sad);
    Unmatched(sad, "happy", 'h');
    Unmatched(sad, "smile", 'm');
  }

  lemma AngryWiggles(angry: string)
    requires angry == "angry"
    ensures AnimationFor(angry) == Wiggle
  {
    MatchesItself(angry);
    Unmatched(angry, "happy", 'h');
    Unmatched(angry, "smile", 's');
    Unmatched(angry, "sad", 's');
    Unmatched(angry, "cry", 'c');
    Unmatched(angry, "down", 'd');
  }

  lemma SurprisedIsNeutral(surprised: string)
    requires surprised == "surprised"
    ensures AnimationFor(surprised) == Neutral
  {
    FallsThrough(surprised, 'h', 'm', 'a', 'c', 'o', 'a', 'a', 'f');
  }

  lemma NeutralIsNeutral(neutral: string)
    requires neutral == "neutral"
    ensures AnimationFor(neutral) == Neutral
  {
    FallsThrough(neutral, 'h', 's', 's', 'c', 'd', 'g', 'm', 'f');
  }

  /** The component's display state. */
  class ExpressionCard {
    var expression: string
    var emoji: string
    var message: string
    var loading: bool
    var animationState: Animation

    constructor ()
      ensures expression == "" && emoji == Thinking && message == ""
      ensures !loading && animationState == Idle
    {
      expression, emoji, message := "", Thinking, "";
      loading, animationState := false, Idle;
    }

    /** The camera could not be opened. */
    method OnCameraError()
      modifies this`message
      ensures message == "Unable to access camera. Please check permissions."
    {
      message := "Unable to access camera. Please check permissions.";
    }

    method TriggerAnimation(mood: string)
      modifies this`animationState
      ensures animationState == AnimationFor(mood)
    {
      if Matches(mood, "happy") || Matches(mood, "smile") {
        animationState := Bounce;
      } else if Matches(mood, "sad") || Matches(mood, "cry") || Matches(mood, "down") {
        animationState := Pulse;
      } else if Matches(mood, "angry") || Matches(mood, "mad") || Matches(mood, "frustrated") {
        animationState := Wiggle;
      } else {
        animationState := Neutral;
      }
    }

    /** One analysed frame. `detections` is the detector's answer and
        `confidenceText` renders a probability with two decimals. */
    method CaptureAndAnalyzeFrame(detections: seq<Detection>, confidenceText: real -> string)
      modifies this
      ensures loading == old(loading)
      ensures detections == [] ==>
                expression == "No face detected" && emoji == Thinking
                && message == "Unable to detect face" && animationState == old(animationState)
      ensures detections != [] && detections[0].expressions == [] ==>
                expression == old(expression) && emoji == old(emoji)
                && message == old(message) && animationState == old(animationState)
      ensures detections != [] && detections[0].expressions != [] ==>
                var top := Dominant(detections[0].expressions).value;
                expression == top.name && emoji == EmojiFor(top.name)
                && message == "Confidence: " + confidenceText(top.probability)
                && animationState == AnimationFor(top.name)
    {
      if |detections| > 0 {
        var top := Dominant(detections[0].expressions);
        if top.Some? {
          var dominant := top.value;
          expression := dominant.name;
          emoji := EmojiFor(dominant.name);
          message := "Confidence: " + confidenceText(dominant.probability);
          TriggerAnimation(dominant.name);
        }
      } else {
        expression := "No face detected";
        emoji := Thinking;
        message := "Unable to detect face";
      }
    }
  }
}
