/** The ticket predictor (backend/ml/predictors.py): an embedding of "subject\n\nbody" is fed to a
    department classifier and a criticality classifier loaded from disk on first use. The
    embedder and the trained classifiers are collaborators given as functions; the threshold, the
    confidence formulas, the optional label encoder, lazy loading and the handcrafted features are
    modelled. Classifier arithmetic is over exact reals. */
module Predictors {
  import opened Wrappers
  import opened Text

  /** A ticket is critical when its critical probability reaches this value. */
  const CriticalThreshold: real := 0.5

  /** The constant added to the decision-score denominator. */
  const Epsilon: real := 0.0000000001

  const ModelsNotFound := "Models not found. Please train models first using scripts/train_models.py"
  const EmptyMaximum := "zero-size array to reduction operation maximum which has no identity"

  /** The text both classifiers see. */
  function ClassifierText(subject: string, body: string): string {
    subject + "\n\n" + body
  }

  // ---------------------------------------------------------------- handcrafted features

  const NetworkWords := ["network", "vpn", "wifi", "connection", "internet", "router", "ethernet"]
  const AccountWords := ["account", "login", "password", "authentication", "access", "credential", "username"]
  const BillingWords := ["bill", "payment", "invoice", "charge", "refund", "price", "cost", "subscription"]
  const ProductWords := ["product", "feature", "functionality", "bug", "error", "issue", "problem"]
  const HardwareWords := ["hardware", "device", "computer", "laptop", "printer", "monitor", "keyboard"]
  const SoftwareWords := ["software", "application", "app", "program", "install", "update", "upgrade"]
  const UrgencyWords := ["urgent", "asap", "immediately", "critical", "emergency", "important"]

  /** The six domain keyword groups, in feature order. */
  const DomainGroups := [NetworkWords, AccountWords, BillingWords, ProductWords, HardwareWords, SoftwareWords]

  /** any(word in text for word in words) */
  function AnyOccurs(words: seq<string>, text: string): (b: bool)
    ensures b <==> exists i :: 0 <= i < |words| && OccursIn(words[i], text)
  {
    if words == [] then false
    else Contains(text, words[0]) || AnyOccurs(words[1..], text)
  }

  /** int(b) */
  function Flag(b: bool): real {
    if b then 1.0 else 0.0
  }

  /** create_handcrafted_features: 13 numbers per text. */
  function HandcraftedFeatures(text: string): (f: seq<real>)
    ensures |f| == 13
  {
    var lower := Lower(text);
    var wordCount := WordCount(text) as real;
    [|text| as real, wordCount, |text| as real / (wordCount + 1.0),
     Flag(AnyOccurs(NetworkWords, lower)), Flag(AnyOccurs(AccountWords, lower)),
     Flag(AnyOccurs(BillingWords, lower)), Flag(AnyOccurs(ProductWords, lower)),
     Flag(AnyOccurs(HardwareWords, lower)), Flag(AnyOccurs(SoftwareWords, lower)),
     0.0, 1.0,
     Flag(AnyOccurs(UrgencyWords, lower)),
     Flag(Contains(text, "?"))]
  }

  /** The feature vector, entry by entry: length, word count and average word length; one flag per
      domain group, set exactly when one of its words occurs in the lower-cased text (the meaning
      AnyOccurs states); the fixed language pair (not German, English); the urgency flag; whether a
      question mark occurs. */
  lemma HandcraftedFeaturesMeaning(text: string)
    ensures var f := HandcraftedFeatures(text);
      && |f| == 13
      && f[0] == |text| as real && f[1] == WordCount(text) as real
      && f[2] == f[0] / (f[1] + 1.0)
      && (forall k :: 0 <= k < 6 ==> f[3 + k] == Flag(AnyOccurs(DomainGroups[k], Lower(text))))
      && f[9] == 0.0 && f[10] == 1.0
      && f[11] == Flag(AnyOccurs(UrgencyWords, Lower(text)))
      && (f[12] == 1.0 <==> OccursIn("?", text)) && (f[12] == 0.0 || f[12] == 1.0)
  {
    var f := HandcraftedFeatures(text);
    var lower := Lower(text);
    assert |f| == 13;
    assert f[12] == Flag(Contains(text, "?"));
    forall k | 0 <= k < 6 ensures f[3 + k] == Flag(AnyOccurs(DomainGroups[k], lower)) {
      assert DomainGroups[0] == NetworkWords && DomainGroups[1] == AccountWords && DomainGroups[2] == BillingWords;
      assert DomainGroups[3] == ProductWords && DomainGroups[4] == HardwareWords && DomainGroups[5] == SoftwareWords;
    }
  }

  /** The features do not depend on letter case: every keyword is matched on the lower-cased text,
      and lower-casing keeps the length, the words and the question marks. */
  lemma FeaturesIgnoreCase(text: string)
    ensures HandcraftedFeatures(Lower(text)) == HandcraftedFeatures(text)
  {
    LowerIdempotent(text);
    CountWordsLower(text, false);
    QuestionMarkLower(text);
    assert Contains(Lower(text), "?") == Contains(text, "?");
  }

  lemma LowerIdempotent(s: string)
    ensures Lower(Lower(s)) == Lower(s)
  {
  }

  lemma {:induction false} CountWordsLower(s: string, inWord: bool)
    ensures CountWords(Lower(s), inWord) == CountWords(s, inWord)
    decreases |s|
  {
    if s != [] {
      assert Lower(s)[1..] == Lower(s[1..]);
      CountWordsLower(s[1..], false);
      CountWordsLower(s[1..], true);
    }
  }

  lemma QuestionMarkLower(s: string)
    ensures OccursIn("?", Lower(s)) <==> OccursIn("?", s)
  {
    var l := Lower(s);
    if OccursIn("?", s) {
      var i :| MatchAt(s, "?", i);
      assert s[i] == s[i..i + 1][0] == '?';
      assert l[i..i + 1] == [l[i]];
      assert MatchAt(l, "?", i);
    }
    if OccursIn("?", l) {
      var i :| MatchAt(l, "?", i);
      assert l[i] == l[i..i + 1][0] == '?';
      assert l[i] == LowerChar(s[i]);
      assert s[i..i + 1] == [s[i]];
      assert MatchAt(s, "?", i);
    }
  }

  lemma LowerAppend(a: string, b: string)
    ensures Lower(a + b) == Lower(a) + Lower(b)
  {
  }

  /** A keyword found in a text is still found when the text is extended at either end, so a
      flag that is set stays set. */
  lemma KeywordsSurviveExtension(words: seq<string>, pre: string, text: string, post: string)
    requires AnyOccurs(words, Lower(text))
    ensures AnyOccurs(words, Lower(pre + text + post))
  {
    var i :| 0 <= i < |words| && OccursIn(words[i], Lower(text));
    var w := words[i];
    var j :| MatchAt(Lower(text), w, j);
    var ext := pre + text + post;
    LowerAppend(pre + text, post);
    LowerAppend(pre, text);
    var le := Lower(pre) + Lower(text) + Lower(post);
    assert le[|pre| + j..|pre| + j + |w|] == Lower(text)[j..j + |w|];
    assert MatchAt(Lower(ext), w, |pre| + j);
  }

  // ---------------------------------------------------------------- classifiers

  /** A raw department label: a class name, or a class index as XGBoost predicts it. */
  datatype RawLabel = Name(name: string) | Index(index: int)

  /** How the department classifier scores its classes: probabilities, or decision scores for a
      classifier without predict_proba. */
  datatype Scoring = Proba(probabilities: seq<real> -> seq<real>) | Decision(scores: seq<real> -> seq<real>)

  datatype DeptClassifier = DeptClassifier(predict: seq<real> -> RawLabel, scoring: Scoring)

  /** predict_proba(x)[0, 1]: the probability of the critical class. */
  datatype CritClassifier = CritClassifier(criticalProbability: seq<real> -> real)

  /** The label encoder's inverse_transform. */
  type LabelEncoder = RawLabel -> string

  /** The files load_models finds: each classifier file and the encoder file may be missing. */
  datatype ModelFiles = ModelFiles(dept: Option<DeptClassifier>, crit: Option<CritClassifier>,
                                   encoder: Option<LabelEncoder>)

  /** What predict_ticket returns. */
  datatype Prediction = Prediction(predictedQueue: RawLabel, queueConfidence: real, criticalProb: real,
                                   isCritical: bool, embedding: seq<real>)

  /** np.max: the largest element, raising on an empty array. */
  function MaxOf(xs: seq<real>): (r: Result<real, string>)
    ensures r.Ok? <==> xs != []
    ensures r.Ok? ==> r.value in xs && forall i :: 0 <= i < |xs| ==> xs[i] <= r.value
    ensures r.Err? ==> r.error == EmptyMaximum
  {
    if xs == [] then Err(EmptyMaximum)
    else if |xs| == 1 then Ok(xs[0])
    else
      var rest := MaxOf(xs[1..]).value;
      Ok(if xs[0] >= rest then xs[0] else rest)
  }

  function Abs(x: real): real {
    if x < 0.0 then -x else x
  }

  /** np.sum(np.abs(xs)) */
  function SumAbs(xs: seq<real>): (r: real)
    ensures r >= 0.0
  {
    if xs == [] then 0.0 else Abs(xs[0]) + SumAbs(xs[1..])
  }

  /** The department confidence: the top probability, or the top decision score over the sum of
      the scores' magnitudes (plus Epsilon). */
  function Confidence(scoring: Scoring, x: seq<real>): Result<real, string> {
    match scoring
    case Proba(p) => MaxOf(p(x))
    case Decision(d) =>
      var s := d(x);
      match MaxOf(s)
      case Err(e) => Err(e)
      case Ok(m) => Ok(m / (SumAbs(s) + Epsilon))
  }

  lemma {:induction false} ElementBelowSumAbs(xs: seq<real>, i: nat)
    requires i < |xs|
    ensures Abs(xs[i]) <= SumAbs(xs)
  {
    if i > 0 {
      ElementBelowSumAbs(xs[1..], i - 1);
    }
  }

  /** A probability-based confidence stays within [0, 1] when the probabilities do; a
      decision-based one is always strictly between -1 and 1. */
  lemma ConfidenceBounds(scoring: Scoring, x: seq<real>)
    requires Confidence(scoring, x).Ok?
    ensures scoring.Proba? && (forall i :: 0 <= i < |scoring.probabilities(x)| ==>
                                0.0 <= scoring.probabilities(x)[i] <= 1.0)
            ==> 0.0 <= Confidence(scoring, x).value <= 1.0
    ensures scoring.Decision? ==> -1.0 < Confidence(scoring, x).value < 1.0
  {
    if scoring.Decision? {
      var s := scoring.scores(x);
      var m := MaxOf(s).value;
      var i :| 0 <= i < |s| && s[i] == m;
      ElementBelowSumAbs(s, i);
      var den := SumAbs(s) + Epsilon;
      assert Abs(m) < den;
      QuotientBelowOne(m, den);
    }
  }

  lemma QuotientBelowOne(m: real, den: real)
    requires den > 0.0 && Abs(m) < den
    ensures -1.0 < m / den < 1.0
  {
    var q := m / den;
    assert q * den == m;
    if q >= 1.0 {
      assert false;
    }
    if q <= -1.0 {
      assert false;
    }
  }

  /** The label predict_ticket returns: decoded to a name by the label encoder when one is loaded;
      otherwise the classifier's raw label, which stays a class index for a classifier that
      predicts indices. */
  function QueueName(raw: RawLabel, encoder: Option<LabelEncoder>): (r: RawLabel)
    ensures encoder.Some? ==> r.Name?
    ensures encoder.None? ==> r == raw
    ensures r.Index? <==> encoder.None? && raw.Index?
  {
    match encoder
    case Some(e) => Name(e(raw))
    case None => raw
  }

  /** The classifiers' input: the embedding, followed by the handcrafted features when the models
      were trained with them. */
  function ClassifierInput(embedding: seq<real>, text: string, enhanced: bool): (x: seq<real>)
    ensures |x| == |embedding| + (if enhanced then 13 else 0)
    ensures x[..|embedding|] == embedding
    ensures enhanced ==> x[|embedding|..] == HandcraftedFeatures(text)
    ensures !enhanced ==> x == embedding
  {
    if enhanced then embedding + HandcraftedFeatures(text) else embedding
  }

  /** The prediction for one ticket, given loaded classifiers: critical exactly when the
      probability reaches the threshold, carrying the embedding of the ticket's text, and naming
      the queue whenever a label encoder is loaded. */
  function Predict(dept: DeptClassifier, crit: CritClassifier, encoder: Option<LabelEncoder>,
                   embed: string -> seq<real>, enhanced: bool, subject: string, body: string): (r: Result<Prediction, string>)
    ensures r.Ok? ==> (r.value.isCritical <==> r.value.criticalProb >= CriticalThreshold)
    ensures r.Ok? ==> r.value.embedding == embed(ClassifierText(subject, body))
    ensures r.Ok? && encoder.Some? ==> r.value.predictedQueue.Name?
  {
    var text := ClassifierText(subject, body);
    var embedding := embed(text);
    var x := ClassifierInput(embedding, text, enhanced);
    match Confidence(dept.scoring, x)
    case Err(e) => Err(e)
    case Ok(confidence) =>
      var p := crit.criticalProbability(x);
      Ok(Prediction(QueueName(dept.predict(x), encoder), confidence, p, p >= CriticalThreshold, embedding))
  }

  /** A prediction is critical exactly when its probability reaches 0.5; the embedding returned is
      the one of "subject\n\nbody", and the classifiers see it directly unless the handcrafted
      features are switched on. */
  lemma PredictionIsConsistent(dept: DeptClassifier, crit: CritClassifier, encoder: Option<LabelEncoder>,
                               embed: string -> seq<real>, enhanced: bool, subject: string, body: string)
    requires Predict(dept, crit, encoder, embed, enhanced, subject, body).Ok?
    ensures var p := Predict(dept, crit, encoder, embed, enhanced, subject, body).value;
      && (p.isCritical <==> p.criticalProb >= 0.5)
      && p.embedding == embed(subject + "\n\n" + body)
      && (!enhanced ==> p.criticalProb == crit.criticalProbability(p.embedding)
                        && p.predictedQueue == QueueName(dept.predict(p.embedding), encoder))
  {
  }

  /** Prediction fails exactly when the department scores come back empty. */
  lemma PredictionFailsOnlyOnEmptyScores(dept: DeptClassifier, crit: CritClassifier, encoder: Option<LabelEncoder>,
                                         embed: string -> seq<real>, enhanced: bool, subject: string, body: string)
    ensures var x := ClassifierInput(embed(ClassifierText(subject, body)), ClassifierText(subject, body), enhanced);
      var scores := match dept.scoring case Proba(p) => p(x) case Decision(d) => d(x);
      Predict(dept, crit, encoder, embed, enhanced, subject, body).Err? <==> scores == []
  {
  }

  /** What batch_predict returns. */
  datatype BatchPrediction = BatchPrediction(predictedQueues: seq<RawLabel>, criticalProbs: seq<real>,
                                             embeddings: seq<seq<real>>)

  /** batch_predict on loaded classifiers: the embeddings go to the classifiers as they are. */
  function BatchOf(dept: DeptClassifier, crit: CritClassifier, encoder: Option<LabelEncoder>,
                   embed: string -> seq<real>, texts: seq<string>): (b: BatchPrediction)
    ensures |b.predictedQueues| == |b.criticalProbs| == |b.embeddings| == |texts|
  {
    var es := seq(|texts|, i requires 0 <= i < |texts| => embed(texts[i]));
    BatchPrediction(seq(|texts|, i requires 0 <= i < |texts| => QueueName(dept.predict(es[i]), encoder)),
                    seq(|texts|, i requires 0 <= i < |texts| => crit.criticalProbability(es[i])),
                    es)
  }

  /** Without handcrafted features, the batch agrees entry by entry with the single prediction of
      a ticket whose text is that entry. */
  lemma BatchAgreesWithSingle(dept: DeptClassifier, crit: CritClassifier, encoder: Option<LabelEncoder>,
                              embed: string -> seq<real>, texts: seq<string>, i: nat, subject: string, body: string)
    requires i < |texts| && texts[i] == ClassifierText(subject, body)
    requires Predict(dept, crit, encoder, embed, false, subject, body).Ok?
    ensures var b := BatchOf(dept, crit, encoder, embed, texts);
      var p := Predict(dept, crit, encoder, embed, false, subject, body).value;
      b.predictedQueues[i] == p.predictedQueue && b.criticalProbs[i] == p.criticalProb
      && b.embeddings[i] == p.embedding
  {
  }

  /** The predictor: its classifiers are loaded from disk on first use. */
  class TicketPredictor {
    const embed: string -> seq<real>
    var deptClassifier: Option<DeptClassifier>
    var criticalClassifier: Option<CritClassifier>
    var labelEncoder: Option<LabelEncoder>
    var useEnhancedFeatures: bool
    var loaded: bool

    ghost predicate Valid()
      reads this
    {
      loaded ==> deptClassifier.Some? && criticalClassifier.Some?
    }

    /** A fresh predictor: nothing loaded, handcrafted features off. */
    constructor (embed: string -> seq<real>)
      ensures Valid() && !loaded && !useEnhancedFeatures && this.embed == embed
      ensures deptClassifier.None? && criticalClassifier.None? && labelEncoder.None?
    {
      this.embed := embed;
      deptClassifier, criticalClassifier, labelEncoder := None, None, None;
      useEnhancedFeatures, loaded := false, false;
    }

    /** load_models: both classifier files are required; the encoder is loaded when present. */
    method LoadModels(files: ModelFiles) returns (r: Result<(), string>)
      requires Valid()
      modifies this
      ensures Valid()
      ensures r.Err? <==> files.dept.None? || files.crit.None?
      ensures r.Err? ==> r.error == ModelsNotFound && unchanged(this)
      ensures r.Ok? ==> && loaded && deptClassifier == files.dept && criticalClassifier == files.crit
                        && labelEncoder == (if files.encoder.Some? then files.encoder else old(labelEncoder))
                        && useEnhancedFeatures == old(useEnhancedFeatures)
    {
      if files.dept.None? || files.crit.None? {
        return Err(ModelsNotFound);
      }
      deptClassifier := files.dept;
      criticalClassifier := files.crit;
      if files.encoder.Some? {
        labelEncoder := files.encoder;
      }
      loaded := true;
      r := Ok(());
    }

    /** The classifiers a prediction uses: the loaded ones, or those on disk when nothing has been
        loaded yet. */
    ghost function ModelsFor(files: ModelFiles): Option<(DeptClassifier, CritClassifier, Option<LabelEncoder>)>
      reads this
      requires Valid()
    {
      if loaded then Some((deptClassifier.value, criticalClassifier.value, labelEncoder))
      else if files.dept.Some? && files.crit.Some? then
        Some((files.dept.value, files.crit.value, if files.encoder.Some? then files.encoder else labelEncoder))
      else None
    }

    /** The result predict_ticket gives in the current state, with these files on disk. */
    ghost function Predicted(subject: string, body: string, files: ModelFiles): Result<Prediction, string>
      reads this
      requires Valid()
    {
      match ModelsFor(files)
      case None => Err(ModelsNotFound)
      case Some((dept, crit, encoder)) => Predict(dept, crit, encoder, embed, useEnhancedFeatures, subject, body)
    }

    /** predict_ticket: loads the classifiers when needed (never again once loaded), then predicts. */
    method PredictTicket(subject: string, body: string, files: ModelFiles) returns (r: Result<Prediction, string>)
      requires Valid()
      modifies this
      ensures Valid() && useEnhancedFeatures == old(useEnhancedFeatures)
      ensures old(loaded) ==> unchanged(this)
      ensures r == old(Predicted(subject, body, files))
      ensures old(ModelsFor(files)).None? ==> unchanged(this)
      ensures old(ModelsFor(files)).Some? ==>
        var (dept, crit, encoder) := old(ModelsFor(files)).value;
        && loaded && deptClassifier == Some(dept) && criticalClassifier == Some(crit) && labelEncoder == encoder
    {
      if !loaded {
        var l := LoadModels(files);
        if l.Err? {
          return Err(l.error);
        }
      }
      var text := subject + "\n\n" + body;
      var embedding := embed(text);
      var x: seq<real>;
      if useEnhancedFeatures {
        var handcrafted := HandcraftedFeatures(text);
        x := embedding + handcrafted;
      } else {
        x := embedding;
      }
      var raw := deptClassifier.value.predict(x);
      var queue := QueueName(raw, labelEncoder);
      var confidence := Confidence(deptClassifier.value.scoring, x);
      if confidence.Err? {
        return Err(confidence.error);
      }
      var p := criticalClassifier.value.criticalProbability(x);
      r := Ok(Prediction(queue, confidence.value, p, p >= CriticalThreshold, embedding));
    }

    /** batch_predict: loads the classifiers when needed, then predicts every text. */
    method BatchPredict(texts: seq<string>, files: ModelFiles) returns (r: Result<BatchPrediction, string>)
      requires Valid()
      modifies this
      ensures Valid() && useEnhancedFeatures == old(useEnhancedFeatures)
      ensures old(loaded) ==> unchanged(this)
      ensures old(ModelsFor(files)).None? ==> r == Err(ModelsNotFound) && unchanged(this)
      ensures old(ModelsFor(files)).Some? ==>
        var (dept, crit, encoder) := old(ModelsFor(files)).value;
        && loaded && deptClassifier == Some(dept) && criticalClassifier == Some(crit) && labelEncoder == encoder
        && r == Ok(BatchOf(dept, crit, encoder, embed, texts))
    {
      if !loaded {
        var l := LoadModels(files);
        if l.Err? {
          return Err(l.error);
        }
      }
      r := Ok(BatchOf(deptClassifier.value, criticalClassifier.value, labelEncoder, embed, texts));
    }
  }

  /** Whatever the state of a predictor, a prediction it gives is critical exactly when its
      probability reaches 0.5. */
  lemma PredictedIsConsistent(predictor: TicketPredictor, subject: string, body: string, files: ModelFiles)
    requires predictor.Valid() && predictor.Predicted(subject, body, files).Ok?
    ensures var p := predictor.Predicted(subject, body, files).value;
      p.isCritical <==> p.criticalProb >= CriticalThreshold
  {
  }
}
