/** The prediction action of the main page and the history invariants it keeps.
    Pressing "Prediksi" with both artifacts loaded builds the feature vector,
    asks the classifier for class probabilities, applies the decision rule and
    appends a record to the history. The loaded scaler and classifier are
    opaque parameters. */
module App {
  import opened Wrappers
  import Features
  import Decision
  import History

  /** The trained classifier: `predict_proba` on one feature row. */
  type Classifier = Features.FeatureVector -> Decision.ClassProbabilities

  /** The two artifacts loaded at start-up. */
  datatype Artifacts = Artifacts(scaler: Features.Scaler, classifier: Classifier)

  /** The history record of one prediction, or the KeyError an unknown
      strategy label raises before anything is recorded. */
  function Predict(a: Artifacts, nama: string, c: Features.CandidateInput): (r: Result<History.Record, Features.Error>)
    ensures r.Success? <==> Features.StrategyOf(c.recruitmentStrategy).Some?
    ensures r.Failure? ==> r.error == Features.UnknownStrategy(c.recruitmentStrategy)
    ensures r.Success? ==>
      && r.value.nama == nama
      && r.value.probabilitas == 100.0 * a.classifier(Features.PreprocessInput(c, a.scaler).value).accepted
      && 0.0 <= r.value.probabilitas <= 100.0
      && (r.value.status == Decision.AcceptedStatus <==> r.value.probabilitas >= Decision.Threshold)
  {
    match Features.PreprocessInput(c, a.scaler)
    case Failure(e) => Failure(e)
    case Success(fv) =>
      var outcome := Decision.Decide(a.classifier(fv));
      Success(History.Record(nama, outcome.probAccept, outcome.status))
  }

  /** Pressing "Prediksi". Without loaded artifacts nothing happens; otherwise
      exactly one record is appended at the end of the history and every
      earlier record stays where it was. */
  function OnPredict(h: seq<History.Record>, loaded: Option<Artifacts>, nama: string, c: Features.CandidateInput)
    : (r: Result<seq<History.Record>, Features.Error>)
    ensures loaded.None? ==> r == Success(h)
    ensures loaded.Some? ==> (r.Success? <==> Features.StrategyOf(c.recruitmentStrategy).Some?)
    ensures loaded.Some? && r.Success? ==>
      && |r.value| == |h| + 1
      && r.value[..|h|] == h
      && r.value[|h|] == Predict(loaded.value, nama, c).value
  {
    match loaded
    case None => Success(h)
    case Some(a) =>
      match Predict(a, nama, c)
      case Failure(e) => Failure(e)
      case Success(record) => Success(History.Append(h, record))
  }

  /** Every strategy the form offers is in the one-hot table, so a prediction
      from the form never raises. */
  lemma FormStrategiesNeverFail(h: seq<History.Record>, a: Artifacts, nama: string, c: Features.CandidateInput, s: Features.Strategy)
    requires c.recruitmentStrategy == Features.Label(s)
    ensures OnPredict(h, Some(a), nama, c).Success?
  {
  }

  /** A record as a prediction writes it: a percentage in 0..100 whose status
      is "Diterima" exactly when it reaches the threshold. */
  predicate Consistent(r: History.Record) {
    && 0.0 <= r.probabilitas <= 100.0
    && (r.status == Decision.AcceptedStatus || r.status == Decision.RejectedStatus)
    && (r.status == Decision.AcceptedStatus <==> r.probabilitas >= Decision.Threshold)
  }

  predicate AllConsistent(h: seq<History.Record>) {
    forall k :: 0 <= k < |h| ==> Consistent(h[k])
  }

  /** Every record a prediction produces is consistent. */
  lemma PredictIsConsistent(a: Artifacts, nama: string, c: Features.CandidateInput)
    requires Features.StrategyOf(c.recruitmentStrategy).Some?
    ensures Consistent(Predict(a, nama, c).value)
  {
    var fv := Features.PreprocessInput(c, a.scaler).value;
    assert Predict(a, nama, c).value == History.Record(nama, Decision.Decide(a.classifier(fv)).probAccept, Decision.Decide(a.classifier(fv)).status);
  }

  /** Predicting keeps every record of the history consistent. */
  lemma OnPredictPreservesConsistency(h: seq<History.Record>, loaded: Option<Artifacts>, nama: string, c: Features.CandidateInput)
    requires AllConsistent(h)
    requires OnPredict(h, loaded, nama, c).Success?
    ensures AllConsistent(OnPredict(h, loaded, nama, c).value)
  {
    if loaded.Some? {
      PredictIsConsistent(loaded.value, nama, c);
      var h' := OnPredict(h, loaded, nama, c).value;
      forall k | 0 <= k < |h'| ensures Consistent(h'[k]) {
        if k < |h| {
          assert h'[k] == h'[..|h|][k];
        }
      }
    }
  }

  /** Deleting a row keeps every remaining record consistent. */
  lemma PopPreservesConsistency(h: seq<History.Record>, i: int)
    requires AllConsistent(h)
    requires History.Pop(h, i).Success?
    ensures AllConsistent(History.Pop(h, i).value)
  {
    var h' := History.Pop(h, i).value;
    forall k | 0 <= k < |h'| ensures Consistent(h'[k]) {
      assert h'[k] in multiset(h');
      assert h'[k] in multiset(h);
      var j :| 0 <= j < |h| && h[j] == h'[k];
    }
  }

  /** Clearing leaves a (trivially) consistent history. */
  lemma ClearPreservesConsistency(h: seq<History.Record>)
    ensures AllConsistent(History.Clear(h))
  {
  }

  /** The worked example end to end: education 2, experience 5, interview 70,
      skill 80, personality 75, Referral. Whatever the scaler and classifier,
      the classifier sees TotalScore 225, interaction 400 and indicators
      1, 0, 0, and the new record is "Diterima" exactly when it reports an
      accepted-class probability of at least 0.61. */
  lemma ExampleCandidate(h: seq<History.Record>, a: Artifacts)
    ensures
      var c := Features.CandidateInput(2, 5, 70, 80, 75, "Referral");
      var fv := Features.PreprocessInput(c, a.scaler).value;
      var r := OnPredict(h, Some(a), "Budi", c);
      && fv.totalScore == 225.0
      && fv.skillExperienceInteraction == 400.0
      && fv.recruitmentStrategy1 == 1.0 && fv.recruitmentStrategy2 == 0.0 && fv.recruitmentStrategy3 == 0.0
      && r.Success?
      && |r.value| == |h| + 1
      && r.value[|h|].nama == "Budi"
      && (r.value[|h|].status == Decision.AcceptedStatus <==> a.classifier(fv).accepted >= 0.61)
  {
    Features.ReferralExample(a.scaler);
  }
}
