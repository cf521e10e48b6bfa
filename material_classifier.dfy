/**
 * The decision logic of the waste-material classifier (image_classifier.py):
 * the order in which the Gemini vision service, the trained model and the
 * colour rules are tried, the clean-up of the Gemini reply, and the
 * rule-based scoring over the image's feature vector. The feature vector,
 * the Gemini reply and its JSON decoding, and the trained model's prediction
 * are inputs.
 */
module MaterialClassification {
  import opened Wrappers

  const Organic: string := "ORGANIC"
  const NonOrganic: string := "NON_ORGANIC"
  const UnknownMaterial: string := "UNKNOWN"
  const GeminiMethod: string := "gemini_api"
  const MlMethod: string := "ml_model"
  const RuleMethod: string := "rule_based"

  /** The length of the vector `extract_features` returns. */
  const FeatureCount: nat := 23
  const BaseConfidence: real := 0.60
  const MaxRuleConfidence: real := 0.85
  const ConfidenceStep: real := 0.05

  /** The fields of the JSON object the Gemini reply decodes to; an absent key is `None`. */
  datatype GeminiJson = GeminiJson(material: Option<string>, confidence: Option<real>)

  /** What the Gemini call gave: no client configured, a raised error, or the reply text. */
  datatype GeminiOutcome = GeminiDisabled | GeminiFailed | GeminiReply(text: string)

  /** What the trained model gave: no model loaded, a raised error, or a prediction and its class probabilities. */
  datatype MlOutcome = MlUnavailable | MlFailed | MlPrediction(prediction: int, probabilities: seq<real>)

  /** The dictionary `classify` returns, one alternative per way it can return. */
  datatype Classification =
    | InvalidImage
    | ByGemini(material: string, confidence: real, rawResponse: string)
    | ByModel(material: string, confidence: real, organicProbability: real, nonOrganicProbability: real)
    | ByRules(material: string, confidence: real, organicScore: int, nonOrganicScore: int)
  {
    function Material(): string {
      if InvalidImage? then UnknownMaterial else material
    }

    function Confidence(): real {
      if InvalidImage? then 0.0 else confidence
    }

    /** The `method` entry; the invalid-image answer has none. */
    function Method(): Option<string> {
      match this
      case InvalidImage => None
      case ByGemini(_, _, _) => Some(GeminiMethod)
      case ByModel(_, _, _, _) => Some(MlMethod)
      case ByRules(_, _, _, _) => Some(RuleMethod)
    }
  }

  /** The characters Python's `str.isspace()` accepts, which `str.strip()` removes. */
  predicate IsSpace(c: char) {
    || ('\t' <= c <= '\r') || ('\U{001C}' <= c <= ' ')
    || c == '\U{0085}' || c == '\U{00A0}' || c == '\U{1680}'
    || ('\U{2000}' <= c <= '\U{200A}') || c == '\U{2028}' || c == '\U{2029}'
    || c == '\U{202F}' || c == '\U{205F}' || c == '\U{3000}'
  }

  /** `str.strip()` with no argument. */
  function Strip(s: string): (r: string)
    ensures |r| <= |s|
    ensures r != [] ==> !IsSpace(r[0]) && !IsSpace(r[|r| - 1])
    ensures forall i :: 0 <= i < |s| && !IsSpace(s[i]) ==> r != []
    decreases |s|
  {
    if s == [] then []
    else if IsSpace(s[0]) then Strip(s[1..])
    else if IsSpace(s[|s| - 1]) then Strip(s[..|s| - 1])
    else s
  }

  /** `r` is `s[i..j]`, and everything `s` has before `i` and from `j` on is white space. */
  ghost predicate MiddleOf(s: string, r: string, i: int, j: int) {
    && 0 <= i <= j <= |s| && r == s[i..j]
    && (forall k :: 0 <= k < i ==> IsSpace(s[k]))
    && (forall k :: j <= k < |s| ==> IsSpace(s[k]))
  }

  /** `strip()` keeps one contiguous piece of the text and removes only white space around it. */
  lemma {:induction false} StripIsMiddle(s: string)
    ensures exists i, j :: MiddleOf(s, Strip(s), i, j)
    decreases |s|
  {
    if s == [] {
      assert MiddleOf(s, Strip(s), 0, 0);
    } else if IsSpace(s[0]) {
      StripIsMiddle(s[1..]);
      var i, j :| MiddleOf(s[1..], Strip(s[1..]), i, j);
      MiddleAfterFront(s, i, j);
    } else if IsSpace(s[|s| - 1]) {
      StripIsMiddle(s[..|s| - 1]);
      var i, j :| MiddleOf(s[..|s| - 1], Strip(s[..|s| - 1]), i, j);
      MiddleAfterBack(s, i, j);
    } else {
      assert s[0..|s|] == s;
      assert MiddleOf(s, Strip(s), 0, |s|);
    }
  }

  /** Stripping a leading white-space character shifts the kept piece by one. */
  lemma MiddleAfterFront(s: string, i: int, j: int)
    requires s != [] && IsSpace(s[0]) && MiddleOf(s[1..], Strip(s[1..]), i, j)
    ensures MiddleOf(s, Strip(s), i + 1, j + 1)
  {
    var t := s[1..];
    assert Strip(s) == Strip(t);
    assert t[i..j] == s[i + 1..j + 1];
    forall k | 1 <= k < |s| && (k < i + 1 || j + 1 <= k) ensures IsSpace(s[k]) {
      assert s[k] == t[k - 1];
    }
  }

  /** Stripping a trailing white-space character keeps the kept piece where it is. */
  lemma MiddleAfterBack(s: string, i: int, j: int)
    requires s != [] && !IsSpace(s[0]) && IsSpace(s[|s| - 1]) && MiddleOf(s[..|s| - 1], Strip(s[..|s| - 1]), i, j)
    ensures MiddleOf(s, Strip(s), i, j)
  {
    var t := s[..|s| - 1];
    assert t[i..j] == s[i..j];
    // s[0] is not white space, so nothing is stripped in front
    assert !IsSpace(t[0]);
    assert i == 0;
    forall k | j <= k < |s| ensures IsSpace(s[k]) {
      if k < |s| - 1 { assert s[k] == t[k]; }
    }
  }

  /** Python's `s[lo:hi]` with a non-negative start and an end that may be past either end of `s`. */
  function Slice(s: string, lo: nat, hi: int): (r: string)
    ensures |r| <= |s|
    ensures lo <= hi <= |s| ==> r == s[lo..hi]
  {
    var h := if hi < 0 then 0 else if hi > |s| then |s| else hi;
    if lo < h then s[lo..h] else []
  }

  /**
   * The Markdown fence taken off a reply: the first 7 and last 3 characters
   * after a "```json" opening, the first 3 and last 3 after any other "```"
   * opening, nothing otherwise.
   */
  function StripFence(t: string): (r: string)
    ensures |r| <= |t|
    ensures !("```" <= t) ==> r == t
  {
    if "```json" <= t then Slice(t, 7, |t| - 3)
    else if "```" <= t then Slice(t, 3, |t| - 3)
    else t
  }

  /** A body fenced as JSON comes back whole. */
  lemma JsonFenceRoundTrip(body: string)
    ensures StripFence("```json" + body + "```") == body
  {
    var t := "```json" + body + "```";
    assert "```json" <= t;
    assert t[7..|t| - 3] == body;
  }

  /** A body fenced without a language tag comes back whole, unless it happens to start with "json". */
  lemma PlainFenceRoundTrip(body: string)
    requires !("json" <= body)
    ensures StripFence("```" + body + "```") == body
  {
    var t := "```" + body + "```";
    assert "```" <= t;
    assert !("```json" <= t) by {
      if |body| >= 4 {
        assert t[3..7] == body[..4];
      } else {
        assert t[3 + |body|] == '`';
      }
    }
    assert t[3..|t| - 3] == body;
  }

  /** A fence too short to hold anything gives the empty text. */
  lemma ShortFenceIsEmpty(t: string)
    requires "```" <= t && |t| <= 6
    ensures StripFence(t) == []
  {
  }

  /** `max(probabilities)`. */
  function Max(s: seq<real>): (m: real)
    requires s != []
    ensures m in s
    ensures forall x :: x in s ==> x <= m
  {
    if |s| == 1 then s[0]
    else
      var m := Max(s[1..]);
      assert forall x :: x in s ==> x == s[0] || x in s[1..];
      if s[0] >= m then s[0] else m
  }

  /** Points for a natural-looking image, out of 6. */
  function OrganicScore(features: seq<real>): (score: int)
    requires |features| == FeatureCount
    ensures 0 <= score <= 6
  {
    var hue, sat, green, brown := features[0], features[2], features[18], features[19];
    (if 30.0 <= hue <= 90.0 then 2 else 0) + (if sat > 80.0 then 1 else 0)
    + (if green > 0.2 then 2 else 0) + (if brown > 0.15 then 1 else 0)
  }

  /** Points for a synthetic-looking image, out of 7. */
  function NonOrganicScore(features: seq<real>): (score: int)
    requires |features| == FeatureCount
    ensures 0 <= score <= 7
  {
    var hue, sat, blue, white := features[0], features[2], features[20], features[21];
    (if (hue < 30.0 || hue > 150.0) && sat < 50.0 then 2 else 0)
    + (if blue > 0.2 then 2 else 0) + (if white > 0.3 then 2 else 0) + (if sat < 30.0 then 1 else 0)
  }

  function Abs(x: int): nat {
    if x < 0 then -x else x
  }

  /** The verdict from the two scores: the higher one wins, a tie goes to organic. */
  function Verdict(organicScore: int, nonOrganicScore: int): (v: (string, real))
    ensures v.0 == Organic <==> organicScore >= nonOrganicScore
    ensures v.0 == NonOrganic <==> nonOrganicScore > organicScore
    ensures var step := BaseConfidence + ConfidenceStep * Abs(organicScore - nonOrganicScore) as real;
      v.1 == if step < MaxRuleConfidence then step else MaxRuleConfidence
    ensures BaseConfidence <= v.1 <= MaxRuleConfidence
    ensures organicScore == nonOrganicScore ==> v == (Organic, BaseConfidence)
  {
    if organicScore > nonOrganicScore then
      (Organic, MinReal(MaxRuleConfidence, BaseConfidence + (organicScore - nonOrganicScore) as real * ConfidenceStep))
    else if nonOrganicScore > organicScore then
      (NonOrganic, MinReal(MaxRuleConfidence, BaseConfidence + (nonOrganicScore - organicScore) as real * ConfidenceStep))
    else
      (Organic, BaseConfidence)
  }

  function MinReal(a: real, b: real): real {
    if a <= b then a else b
  }

  /** The rule-based answer for a feature vector. */
  function RuleClassification(features: seq<real>): (r: Classification)
    requires |features| == FeatureCount
    ensures r.ByRules? && r.Method() == Some(RuleMethod)
    ensures r.organicScore == OrganicScore(features) && r.nonOrganicScore == NonOrganicScore(features)
    ensures (r.material, r.confidence) == Verdict(r.organicScore, r.nonOrganicScore)
  {
    var o, n := OrganicScore(features), NonOrganicScore(features);
    var v := Verdict(o, n);
    ByRules(v.0, v.1, o, n)
  }

  /** `_rule_based_classify`: the two scores are accumulated rule by rule. */
  method RuleBasedClassify(features: seq<real>) returns (r: Classification)
    requires |features| == FeatureCount
    ensures r == RuleClassification(features)
    ensures 0 <= r.organicScore <= 6 && 0 <= r.nonOrganicScore <= 7
    ensures BaseConfidence <= r.confidence <= MaxRuleConfidence
  {
    var avgHue := features[0];
    var avgSat := features[2];
    var greenRatio := features[18];
    var brownRatio := features[19];
    var blueRatio := features[20];
    var whiteRatio := features[21];

    var organicScore := 0;
    if 30.0 <= avgHue <= 90.0 {
      organicScore := organicScore + 2;
    }
    if avgSat > 80.0 {
      organicScore := organicScore + 1;
    }
    if greenRatio > 0.2 {
      organicScore := organicScore + 2;
    }
    if brownRatio > 0.15 {
      organicScore := organicScore + 1;
    }

    var nonOrganicScore := 0;
    if (avgHue < 30.0 || avgHue > 150.0) && avgSat < 50.0 {
      nonOrganicScore := nonOrganicScore + 2;
    }
    if blueRatio > 0.2 {
      nonOrganicScore := nonOrganicScore + 2;
    }
    if whiteRatio > 0.3 {
      nonOrganicScore := nonOrganicScore + 2;
    }
    if avgSat < 30.0 {
      nonOrganicScore := nonOrganicScore + 1;
    }

    var material: string;
    var confidence: real;
    if organicScore > nonOrganicScore {
      material := Organic;
      confidence := MinReal(MaxRuleConfidence, BaseConfidence + (organicScore - nonOrganicScore) as real * ConfidenceStep);
    } else if nonOrganicScore > organicScore {
      material := NonOrganic;
      confidence := MinReal(MaxRuleConfidence, BaseConfidence + (nonOrganicScore - organicScore) as real * ConfidenceStep);
    } else {
      material := Organic;
      confidence := BaseConfidence;
    }
    r := ByRules(material, confidence, organicScore, nonOrganicScore);
  }

  /** The Gemini answer, when the reply cleans up to a JSON object; `decode` is `json.loads` followed by the field reads. */
  function GeminiAnswer(g: GeminiOutcome, decode: string -> Option<GeminiJson>): (r: Option<Classification>)
    ensures r.Some? <==> g.GeminiReply? && decode(StripFence(Strip(g.text))).Some?
    ensures r.Some? ==> r.value.ByGemini? && r.value.rawResponse == StripFence(Strip(g.text))
  {
    match g
    case GeminiReply(text) =>
      var cleaned := StripFence(Strip(text));
      (match decode(cleaned)
       case Some(json) => Some(ByGemini(json.material.GetOr(UnknownMaterial), json.confidence.GetOr(0.0), cleaned))
       case None => None)
    case _ => None
  }

  /** The trained model's answer; `max` of no probabilities raises, which falls through to the rules. */
  function ModelAnswer(m: MlOutcome): (r: Option<Classification>)
    ensures r.Some? <==> m.MlPrediction? && m.probabilities != []
    ensures r.Some? ==> r.value.ByModel?
  {
    match m
    case MlPrediction(prediction, probabilities) =>
      if probabilities == [] then None
      else
        var material := if prediction == 1 then Organic else NonOrganic;
        var organic := if |probabilities| > 1 then probabilities[1] else 0.5;
        var nonOrganic := if |probabilities| > 0 then probabilities[0] else 0.5;
        Some(ByModel(material, Max(probabilities), organic, nonOrganic))
    case _ => None
  }

  /**
   * `classify`: an invalid image is refused; otherwise Gemini is tried
   * first, then the trained model, then the rules.
   */
  function Classify(imageSize: Option<nat>, features: seq<real>, g: GeminiOutcome,
                    decode: string -> Option<GeminiJson>, m: MlOutcome): (r: Classification)
    requires imageSize.Some? && imageSize.value > 0 ==> |features| == FeatureCount
    ensures r.InvalidImage? <==> imageSize.None? || imageSize.value == 0
  {
    if imageSize.None? || imageSize.value == 0 then InvalidImage
    else
      match GeminiAnswer(g, decode)
      case Some(answer) => answer
      case None =>
        match ModelAnswer(m)
        case Some(answer) => answer
        case None => RuleClassification(features)
  }

  /** A missing or empty image is classified UNKNOWN with no confidence. */
  lemma InvalidImageIsUnknown(imageSize: Option<nat>, features: seq<real>, g: GeminiOutcome,
                              decode: string -> Option<GeminiJson>, m: MlOutcome)
    requires imageSize.None? || imageSize.value == 0
    ensures Classify(imageSize, features, g, decode, m).Material() == UnknownMaterial
    ensures Classify(imageSize, features, g, decode, m).Confidence() == 0.0
    ensures Classify(imageSize, features, g, decode, m).Method().None?
  {
  }

  /** The method tag names the first source in the order Gemini, trained model, rules that gave an answer. */
  lemma FallbackOrder(imageSize: nat, features: seq<real>, g: GeminiOutcome,
                      decode: string -> Option<GeminiJson>, m: MlOutcome)
    requires imageSize > 0 && |features| == FeatureCount
    ensures var r := Classify(Some(imageSize), features, g, decode, m);
      && (r.Method() == Some(GeminiMethod) <==> GeminiAnswer(g, decode).Some?)
      && (r.Method() == Some(MlMethod) <==> GeminiAnswer(g, decode).None? && ModelAnswer(m).Some?)
      && (r.Method() == Some(RuleMethod) <==> GeminiAnswer(g, decode).None? && ModelAnswer(m).None?)
      && (r.Method() == Some(RuleMethod) ==> r == RuleClassification(features))
  {
  }

  /** Without a Gemini client and a trained model, the rules decide. */
  lemma OfflineUsesRules(imageSize: nat, features: seq<real>, decode: string -> Option<GeminiJson>)
    requires imageSize > 0 && |features| == FeatureCount
    ensures Classify(Some(imageSize), features, GeminiDisabled, decode, MlUnavailable) == RuleClassification(features)
  {
  }

  /** The trained model's class 1 is organic, anything else non-organic; a missing probability reads as one half. */
  lemma ModelAnswerFields(prediction: int, probabilities: seq<real>)
    requires probabilities != []
    ensures var r := ModelAnswer(MlPrediction(prediction, probabilities)).value;
      && (r.material == Organic <==> prediction == 1)
      && (r.material == NonOrganic <==> prediction != 1)
      && r.nonOrganicProbability == probabilities[0]
      && r.organicProbability == (if |probabilities| > 1 then probabilities[1] else 0.5)
      && (forall p :: p in probabilities ==> p <= r.confidence)
      && r.confidence in probabilities
  {
  }

  /** Each score reaches its maximum exactly when every one of its cues is present. */
  lemma FullScores(features: seq<real>)
    requires |features| == FeatureCount
    ensures OrganicScore(features) == 6 <==>
      30.0 <= features[0] <= 90.0 && features[2] > 80.0 && features[18] > 0.2 && features[19] > 0.15
    ensures NonOrganicScore(features) == 7 <==>
      (features[0] < 30.0 || features[0] > 150.0) && features[2] < 30.0 && features[20] > 0.2 && features[21] > 0.3
  {
  }
}
