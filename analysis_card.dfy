/** The simulated skin analysis of `AnalysisCard`: two threshold classifiers
    driven by random numbers, the tips shown for the four labels, and the
    saved-analysis list with its one-record CSV report. The random numbers
    and the timestamp are parameters. */
module Analysis {
  import opened Text

  /** Every label before the first analysis and after a reset. */
  const NoAnalysis := "No analysis yet"

  /** The five skin tones, from the lowest bucket of `v` to the highest. */
  const SkinTones: seq<string> := ["Deep", "Tan", "Medium", "Light", "Fair"]

  /** Skin tone from the random value `v` (in [0, 1) in the component). */
  function SkinToneFor(v: real): (tone: string)
    ensures tone in SkinTones
    ensures tone == "Deep" <==> v < 0.4
    ensures tone == "Tan" <==> 0.4 <= v < 0.55
    ensures tone == "Medium" <==> 0.55 <= v < 0.7
    ensures tone == "Light" <==> 0.7 <= v < 0.85
    ensures tone == "Fair" <==> 0.85 <= v
  {
    if v < 0.4 then "Deep"
    else if v < 0.55 then "Tan"
    else if v < 0.7 then "Medium"
    else if v < 0.85 then "Light"
    else "Fair"
  }

  /** Position of a tone in `SkinTones`. */
  function ToneRank(tone: string): (k: nat)
    requires tone in SkinTones
    ensures k < |SkinTones| && SkinTones[k] == tone
  {
    if tone == "Deep" then 0
    else if tone == "Tan" then 1
    else if tone == "Medium" then 2
    else if tone == "Light" then 3
    else 4
  }

  /** A larger `v` never gives a lower bucket. */
  lemma SkinToneMonotone(v: real, w: real)
    requires v <= w
    ensures ToneRank(SkinToneFor(v)) <= ToneRank(SkinToneFor(w))
  {
  }

  /** The three labels set together from one texture variance. */
  datatype TextureReading = TextureReading(texture: string, elasticity: string, hydration: string)

  /** Texture, elasticity and hydration from the random texture variance
      (in [0, 100) in the component). The `Oily` branch is the fall-through
      of the chain, and only a variance of exactly 40 reaches it. */
  function TextureReadingFor(variance: real): (r: TextureReading)
    ensures r.texture == "Very Smooth" <==> variance < 10.0
    ensures r.texture == "Smooth" <==> 10.0 <= variance < 25.0
    ensures r.texture == "Normal" <==> 25.0 <= variance < 40.0
    ensures r.texture == "Dry" <==> 40.0 < variance <= 60.0
    ensures r.texture == "Acne-Prone" <==> 60.0 < variance
    ensures r.texture == "Oily" <==> variance == 40.0
    ensures r in TextureReadings
  {
    if variance < 10.0 then TextureReading("Very Smooth", "High", "Optimal")
    else if variance < 25.0 then TextureReading("Smooth", "Moderate", "Good")
    else if variance < 40.0 then TextureReading("Normal", "Moderate", "Average")
    else if variance > 40.0 && variance <= 60.0 then TextureReading("Dry", "Low", "Low")
    else if variance > 60.0 then TextureReading("Acne-Prone", "Low", "Very Low")
    else TextureReading("Oily", "Moderate", "High")
  }

  /** The six readings the classifier can produce. */
  const TextureReadings: set<TextureReading> := {
    TextureReading("Very Smooth", "High", "Optimal"),
    TextureReading("Smooth", "Moderate", "Good"),
    TextureReading("Normal", "Moderate", "Average"),
    TextureReading("Dry", "Low", "Low"),
    TextureReading("Acne-Prone", "Low", "Very Low"),
    TextureReading("Oily", "Moderate", "High")
  }

  /** Elasticity and hydration depend on the texture label alone. */
  lemma ReadingDeterminedByTexture(a: real, b: real)
    requires TextureReadingFor(a).texture == TextureReadingFor(b).texture
    ensures TextureReadingFor(a) == TextureReadingFor(b)
  {
  }

  /** The twenty-one fixed tip sentences the card can show. */
  datatype Tip =
    | FairSun | LightExfoliant | MediumSpf | TanMoisturize | DeepBrighten
    | VerySmoothRoutine | SmoothExfoliant | OilyCleanser | DrySerum
    | HighMaintain | HighCollagen | ModerateFirming | ModerateSpf | LowRetinoid | LowRichMoisturizer
    | OptimalWater | OptimalRoutine | GoodSerum | AverageMoisturizer | AverageMask | LowHydrate
  {
    /** The words of the tip. */
    function Words(): string
    {
      match this
      case FairSun => "Fair skin is sensitive to sun exposure. Make sure to use sunscreen!"
      case LightExfoliant => "Use products with gentle exfoliants to brighten up your skin tone."
      case MediumSpf => "Medium skin tone often tans easily. Hydrate and protect with SPF."
      case TanMoisturize => "Tan skin can be prone to dryness. Make sure to use a moisturizing routine."
      case DeepBrighten => "Deep skin tones may experience hyperpigmentation. Consider using brightening treatments."
      case VerySmoothRoutine => "Great texture! Keep up with your regular skincare routine."
      case SmoothExfoliant => "Consider adding a mild exfoliant to maintain smooth skin."
      case OilyCleanser => "Use a gel-based moisturizer and clean your face with an oil-control cleanser."
      case DrySerum => "Opt for hydrating serums and rich moisturizers to maintain skin moisture."
      case HighMaintain => "Keep up with your skincare routine to maintain elasticity."
      case HighCollagen => "Consider incorporating collagen-boosting products for long-term benefits."
      case ModerateFirming => "Add a firming serum or treatment to improve elasticity."
      case ModerateSpf => "Regular moisturizing and SPF can help maintain skin elasticity."
      case LowRetinoid => "Consider using products that support skin regeneration, like retinoids."
      case LowRichMoisturizer => "Hydrate your skin regularly with a richer moisturizer."
      case OptimalWater => "Keep your hydration levels up by drinking water and using hydrating products."
      case OptimalRoutine => "Continue using your current skincare routine for healthy, hydrated skin."
      case GoodSerum => "Consider adding a more hydrating serum to boost moisture levels."
      case AverageMoisturizer => "Use a thicker moisturizer and stay hydrated throughout the day."
      case AverageMask => "Consider using a hydrating mask once a week for deep hydration."
      case LowHydrate => "Your skin may need extra hydration. Use a rich moisturizer and hydrating serum."
    }
  }

  /** One tip for each of the five tones, none otherwise. */
  function SkinToneTips(tone: string): (tips: seq<Tip>)
    ensures |tips| == if tone in SkinTones then 1 else 0
  {
    if tone == "Fair" then [FairSun]
    else if tone == "Light" then [LightExfoliant]
    else if tone == "Medium" then [MediumSpf]
    else if tone == "Tan" then [TanMoisturize]
    else if tone == "Deep" then [DeepBrighten]
    else []
  }

  /** One tip for Very Smooth, Smooth, Oily and Dry, none otherwise. */
  function TextureTips(texture: string): (tips: seq<Tip>)
    ensures |tips| == if texture in {"Very Smooth", "Smooth", "Oily", "Dry"} then 1 else 0
  {
    if texture == "Very Smooth" then [VerySmoothRoutine]
    else if texture == "Smooth" then [SmoothExfoliant]
    else if texture == "Oily" then [OilyCleanser]
    else if texture == "Dry" then [DrySerum]
    else []
  }

  /** Two tips for High, Moderate and Low, none otherwise. */
  function ElasticityTips(elasticity: string): (tips: seq<Tip>)
    ensures |tips| == if elasticity in {"High", "Moderate", "Low"} then 2 else 0
  {
    if elasticity == "High" then [HighMaintain, HighCollagen]
    else if elasticity == "Moderate" then [ModerateFirming, ModerateSpf]
    else if elasticity == "Low" then [LowRetinoid, LowRichMoisturizer]
    else []
  }

  /** Two tips for Optimal and Average, one for Good and Low, none otherwise. */
  function HydrationTips(hydration: string): (tips: seq<Tip>)
    ensures |tips| == if hydration in {"Optimal", "Average"} then 2
                      else if hydration in {"Good", "Low"} then 1
                      else 0
  {
    if hydration == "Optimal" then [OptimalWater, OptimalRoutine]
    else if hydration == "Good" then [GoodSerum]
    else if hydration == "Average" then [AverageMoisturizer, AverageMask]
    else if hydration == "Low" then [LowHydrate]
    else []
  }

  /** The tips for four labels: skin tone first, then texture, elasticity
      and hydration. */
  function AITips(tone: string, texture: string, elasticity: string, hydration: string): seq<Tip>
  {
    SkinToneTips(tone) + TextureTips(texture) + ElasticityTips(elasticity) + HydrationTips(hydration)
  }

  /** After an analysis there are three to six tips: six exactly for a
      Very Smooth texture, three exactly for an Acne-Prone one. */
  lemma TipCountAfterAnalysis(v: real, variance: real)
    ensures var r := TextureReadingFor(variance);
            var n := |AITips(SkinToneFor(v), r.texture, r.elasticity, r.hydration)|;
            3 <= n <= 6 && (n == 6 <==> variance < 10.0) && (n == 3 <==> variance > 60.0)
  {
    var r := TextureReadingFor(variance);
    assert r.texture != "Normal" && r.texture != "Acne-Prone" ==>
      r.texture in {"Very Smooth", "Smooth", "Oily", "Dry"};
  }

  /** Before an analysis and after a reset no tip is shown. */
  lemma NoTipsWithoutAnalysis()
    ensures AITips(NoAnalysis, NoAnalysis, NoAnalysis, NoAnalysis) == []
  {
    assert NoAnalysis !in SkinTones;
  }

  /** One saved analysis. */
  datatype AnalysisRecord = AnalysisRecord(skinTone: string, texture: string, elasticity: string,
                                           hydration: string, timestamp: string)

  const CsvHeader: seq<string> := ["Skin Tone", "Texture", "Elasticity", "Hydration", "Timestamp"]

  /** The first line of every report. */
  const CsvHeaderLine := "Skin Tone" + "," + "Texture" + "," + "Elasticity" + "," + "Hydration" + "," + "Timestamp"

  lemma HeaderJoin()
    ensures Join(CsvHeader, ',') == CsvHeaderLine
  {
    JoinFive(CsvHeader[0], CsvHeader[1], CsvHeader[2], CsvHeader[3], CsvHeader[4], ',');
    assert CsvHeader == [CsvHeader[0], CsvHeader[1], CsvHeader[2], CsvHeader[3], CsvHeader[4]];
  }

  /** A five-field row is the fields with a separator between each pair. */
  lemma JoinFive(a: string, b: string, c: string, d: string, e: string, sep: char)
    ensures Join([a, b, c, d, e], sep) == a + [sep] + b + [sep] + c + [sep] + d + [sep] + e
  {
    var parts := [a, b, c, d, e];
    assert parts[1..] == [b, c, d, e];
    assert parts[1..][1..] == [c, d, e];
    assert parts[1..][1..][1..] == [d, e];
    assert parts[1..][1..][1..][1..] == [e];
    assert Join([d, e], sep) == d + [sep] + e;
    assert Join([c, d, e], sep) == c + [sep] + (d + [sep] + e);
    assert Join([b, c, d, e], sep) == b + [sep] + (c + [sep] + (d + [sep] + e));
  }

  function CsvFields(r: AnalysisRecord): seq<string>
  {
    [r.skinTone, r.texture, r.elasticity, r.hydration, r.timestamp]
  }

  /** The downloaded report: rows joined by ",", lines joined by "\n",
      nothing quoted. */
  function CsvReport(r: AnalysisRecord): (csv: string)
  {
    Join([Join(CsvHeader, ','), Join(CsvFields(r), ',')], '\n')
  }

  /** The report is exactly the fixed header line, a line break and the five
      fields separated by commas. */
  lemma CsvReportText(r: AnalysisRecord)
    ensures CsvReport(r) == CsvHeaderLine + "\n" + Join(CsvFields(r), ',')
  {
    HeaderJoin();
    var lines := [Join(CsvHeader, ','), Join(CsvFields(r), ',')];
    assert lines[1..] == [Join(CsvFields(r), ',')];
    assert Join(lines, '\n') == lines[0] + ['\n'] + Join(lines[1..], '\n');
    assert CsvReport(r) == Join(lines, '\n');
  }

  predicate CsvSafe(field: string)
  {
    ',' !in field && '\n' !in field
  }

  /** When no field holds a comma or a line break, the report splits into
      the header line and one row, and the row splits back into the fields. */
  lemma CsvRoundTrip(r: AnalysisRecord)
    requires forall f :: f in CsvFields(r) ==> CsvSafe(f)
    ensures Split(CsvReport(r), '\n') == [CsvHeaderLine, Join(CsvFields(r), ',')]
    ensures Split(Join(CsvFields(r), ','), ',') == CsvFields(r)
  {
    var row := Join(CsvFields(r), ',');
    RowSplits(r);
    CsvReportText(r);
    HeaderLineCsvSafe();
    SplitAtFirstSep(CsvHeaderLine, row, '\n');
    SplitWithoutSep(row, '\n');
  }

  lemma HeaderLineCsvSafe()
    ensures '\n' !in CsvHeaderLine
  {
    forall i | 0 <= i < |CsvHeader| ensures '\n' !in CsvHeader[i] {
    }
    JoinKeepsOut(CsvHeader, ',', '\n');
    HeaderJoin();
  }

  lemma RowSplits(r: AnalysisRecord)
    requires forall f :: f in CsvFields(r) ==> CsvSafe(f)
    ensures '\n' !in Join(CsvFields(r), ',')
    ensures Split(Join(CsvFields(r), ','), ',') == CsvFields(r)
  {
    var fields := CsvFields(r);
    forall i | 0 <= i < |fields| ensures ',' !in fields[i] && '\n' !in fields[i] {
      assert fields[i] in fields;
    }
    JoinKeepsOut(fields, ',', '\n');
    SplitJoin(fields, ',');
  }

  /** A character absent from the parts and different from the separator is
      absent from their join. */
  lemma {:induction false} JoinKeepsOut(parts: seq<string>, sep: char, c: char)
    requires c != sep
    requires forall i :: 0 <= i < |parts| ==> c !in parts[i]
    ensures c !in Join(parts, sep)
  {
    if |parts| > 1 {
      JoinKeepsOut(parts[1..], sep, c);
    }
  }

  /** The labels of the card either are all unset or come from one analysis. */
  predicate Labelled(tone: string, reading: TextureReading)
  {
    (tone == NoAnalysis && reading == TextureReading(NoAnalysis, NoAnalysis, NoAnalysis))
    || (tone in SkinTones && reading in TextureReadings)
  }

  /** Every label the card can show is free of commas and line breaks, so a
      saved report with a plain timestamp always parses back. */
  lemma SavedReportParses(tone: string, reading: TextureReading, timestamp: string)
    requires Labelled(tone, reading)
    requires CsvSafe(timestamp)
    ensures var r := AnalysisRecord(tone, reading.texture, reading.elasticity, reading.hydration, timestamp);
            |Split(CsvReport(r), '\n')| == 2 && Split(Split(CsvReport(r), '\n')[1], ',') == CsvFields(r)
  {
    var r := AnalysisRecord(tone, reading.texture, reading.elasticity, reading.hydration, timestamp);
    LabelsCsvSafe(tone, reading);
    CsvRoundTrip(r);
  }

  lemma LabelsCsvSafe(tone: string, reading: TextureReading)
    requires Labelled(tone, reading)
    ensures CsvSafe(tone) && CsvSafe(reading.texture)
    ensures CsvSafe(reading.elasticity) && CsvSafe(reading.hydration)
  {
    if tone == NoAnalysis {
      NoAnalysisCsvSafe();
    } else {
      TonesCsvSafe(tone);
    }
    if reading in TextureReadings {
      ReadingsCsvSafe(reading);
    } else {
      NoAnalysisCsvSafe();
    }
  }

  lemma NoAnalysisCsvSafe()
    ensures CsvSafe(NoAnalysis)
  {
  }

  lemma TonesCsvSafe(tone: string)
    requires tone in SkinTones
    ensures CsvSafe(tone)
  {
  }

  lemma ReadingsCsvSafe(reading: TextureReading)
    requires reading in TextureReadings
    ensures CsvSafe(reading.texture) && CsvSafe(reading.elasticity) && CsvSafe(reading.hydration)
  {
    TexturesCsvSafe(reading.texture);
    ElasticitiesCsvSafe(reading.elasticity);
    HydrationsCsvSafe(reading.hydration);
  }

  lemma TexturesCsvSafe(texture: string)
    requires texture in ["Very Smooth", "Smooth", "Normal", "Dry", "Acne-Prone", "Oily"]
    ensures CsvSafe(texture)
  {
  }

  lemma ElasticitiesCsvSafe(elasticity: string)
    requires elasticity in ["High", "Moderate", "Low"]
    ensures CsvSafe(elasticity)
  {
  }

  lemma HydrationsCsvSafe(hydration: string)
    requires hydration in ["Optimal", "Good", "Average", "Low", "Very Low", "High"]
    ensures CsvSafe(hydration)
  {
  }

  /** The state of the card: the four labels, the two flags and the list of
      saved analyses. */
  class AnalysisCard {
    var savedAnalysis: seq<AnalysisRecord>
    var realSkinTone: string
    var realTexture: string
    var skinElasticity: string
    var hydrationLevel: string
    var isAnalyzing: bool
    var isLoading: bool

    ghost predicate Valid()
      reads this
    {
      Labelled(realSkinTone, TextureReading(realTexture, skinElasticity, hydrationLevel))
    }

    constructor ()
      ensures Valid()
      ensures savedAnalysis == []
      ensures realSkinTone == NoAnalysis && realTexture == NoAnalysis
      ensures skinElasticity == NoAnalysis && hydrationLevel == NoAnalysis
      ensures !isAnalyzing && !isLoading
    {
      savedAnalysis := [];
      realSkinTone, realTexture := NoAnalysis, NoAnalysis;
      skinElasticity, hydrationLevel := NoAnalysis, NoAnalysis;
      isAnalyzing, isLoading := false, false;
    }

    /** "Start Analysis": classify the two random draws. */
    method HandleAnalysis(v: real, textureVariance: real)
      requires Valid()
      modifies this
      ensures Valid()
      ensures isLoading && isAnalyzing
      ensures realSkinTone == SkinToneFor(v)
      ensures TextureReading(realTexture, skinElasticity, hydrationLevel) == TextureReadingFor(textureVariance)
      ensures savedAnalysis == old(savedAnalysis)
    {
      isLoading := true;
      isAnalyzing := true;
      realSkinTone := SkinToneFor(v);
      var reading := TextureReadingFor(textureVariance);
      realTexture := reading.texture;
      skinElasticity := reading.elasticity;
      hydrationLevel := reading.hydration;
    }

    /** The timer callback that ends the loading spinner. */
    method FinishLoading()
      modifies this`isLoading
      ensures !isLoading
    {
      isLoading := false;
    }

    /** "Reanalyze": back to the unset labels; the saved list stays. */
    method HandleReanalyze()
      requires Valid()
      modifies this
      ensures Valid()
      ensures !isAnalyzing && isLoading == old(isLoading)
      ensures realSkinTone == NoAnalysis && realTexture == NoAnalysis
      ensures skinElasticity == NoAnalysis && hydrationLevel == NoAnalysis
      ensures savedAnalysis == old(savedAnalysis)
    {
      isAnalyzing := false;
      realSkinTone := NoAnalysis;
      realTexture := NoAnalysis;
      skinElasticity := NoAnalysis;
      hydrationLevel := NoAnalysis;
    }

    /** "Save Analysis": append the current labels with the timestamp and
        return the CSV text that is downloaded. */
    method HandleSaveAnalysis(timestamp: string) returns (csv: string)
      requires Valid()
      modifies this`savedAnalysis
      ensures Valid()
      ensures var r := AnalysisRecord(realSkinTone, realTexture, skinElasticity, hydrationLevel, timestamp);
              savedAnalysis == old(savedAnalysis) + [r] && csv == CsvReport(r)
    {
      var analysisData := AnalysisRecord(realSkinTone, realTexture, skinElasticity, hydrationLevel, timestamp);
      savedAnalysis := savedAnalysis + [analysisData];
      csv := CsvReport(analysisData);
    }

    /** The tips for the current labels, pushed category by category. */
    method GenerateAITips() returns (tips: seq<Tip>)
      ensures tips == AITips(realSkinTone, realTexture, skinElasticity, hydrationLevel)
    {
      tips := [];

      if realSkinTone == "Fair" {
        tips := tips + [FairSun];
      } else if realSkinTone == "Light" {
        tips := tips + [LightExfoliant];
      } else if realSkinTone == "Medium" {
        tips := tips + [MediumSpf];
      } else if realSkinTone == "Tan" {
        tips := tips + [TanMoisturize];
      } else if realSkinTone == "Deep" {
        tips := tips + [DeepBrighten];
      }
      assert tips == SkinToneTips(realSkinTone);
      ghost var toneTips := tips;

      if realTexture == "Very Smooth" {
        tips := tips + [VerySmoothRoutine];
      } else if realTexture == "Smooth" {
        tips := tips + [SmoothExfoliant];
      } else if realTexture == "Oily" {
        tips := tips + [OilyCleanser];
      } else if realTexture == "Dry" {
        tips := tips + [DrySerum];
      }
      assert tips == toneTips + TextureTips(realTexture);
      ghost var textureTips := tips;

      if skinElasticity == "High" {
        tips := tips + [HighMaintain, HighCollagen];
      } else if skinElasticity == "Moderate" {
        tips := tips + [ModerateFirming, ModerateSpf];
      } else if skinElasticity == "Low" {
        tips := tips + [LowRetinoid, LowRichMoisturizer];
      }
      assert tips == textureTips + ElasticityTips(skinElasticity);
      ghost var elasticityTips := tips;

      if hydrationLevel == "Optimal" {
        tips := tips + [OptimalWater, OptimalRoutine];
      } else if hydrationLevel == "Good" {
        tips := tips + [GoodSerum];
      } else if hydrationLevel == "Average" {
        tips := tips + [AverageMoisturizer, AverageMask];
      } else if hydrationLevel == "Low" {
        tips := tips + [LowHydrate];
      }
      assert tips == elasticityTips + HydrationTips(hydrationLevel);
    }
  }

  lemma TipCountForReading(tone: string, reading: TextureReading)
    requires tone in SkinTones && reading in TextureReadings
    ensures 3 <= |AITips(tone, reading.texture, reading.elasticity, reading.hydration)| <= 6
  {
  }
}
