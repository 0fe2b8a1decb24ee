/** The decision rule wrapped around the classifier (app.py, the block after
    `preprocess_input`): the accepted-class probability becomes a percentage,
    which is compared with a fixed threshold and labelled. */
module Decision {

  /** A class probability as `predict_proba` reports it. */
  type Probability = p: real | 0.0 <= p <= 1.0

  /** One row of `predict_proba`: index 0 is "not accepted", index 1 is "accepted". */
  datatype ClassProbabilities = ClassProbabilities(rejected: Probability, accepted: Probability)

  /** The acceptance cutoff, in percent. */
  const Threshold: real := 61.0

  const AcceptedStatus: string := "Diterima"
  const RejectedStatus: string := "Tidak Diterima"

  /** `prob_accept = prediction_proba[1] * 100`: a percentage between 0 and 100
      that grows with the accepted-class probability. */
  function ProbAccept(proba: ClassProbabilities): (pct: real)
    ensures 0.0 <= pct <= 100.0
    ensures pct / 100.0 == proba.accepted
  {
    proba.accepted * 100.0
  }

  /** `1 if prob_accept >= threshold else 0`, with an inclusive boundary. */
  function Prediction(pct: real): (flag: int)
    ensures flag == 0 || flag == 1
    ensures flag == 1 <==> pct >= Threshold
  {
    if pct >= Threshold then 1 else 0
  }

  /** The label stored with the prediction. */
  function Status(flag: int): (s: string)
    ensures s == AcceptedStatus <==> flag == 1
    ensures s == AcceptedStatus || s == RejectedStatus
  {
    if flag == 1 then AcceptedStatus else RejectedStatus
  }

  /** What one prediction yields: the percentage and its status label. */
  datatype Outcome = Outcome(probAccept: real, status: string)

  /** The whole decision block: the result is accepted exactly when the
      accepted-class probability is at least 0.61. */
  function Decide(proba: ClassProbabilities): (o: Outcome)
    ensures o.probAccept == 100.0 * proba.accepted
    ensures o.status == AcceptedStatus || o.status == RejectedStatus
    ensures o.status == AcceptedStatus <==> o.probAccept >= Threshold
    ensures o.status == AcceptedStatus <==> proba.accepted >= 0.61
  {
    var pct := ProbAccept(proba);
    Outcome(pct, Status(Prediction(pct)))
  }

  /** The boundary is inclusive: a percentage of exactly 61 is accepted, and
      every percentage below it is rejected. */
  lemma BoundaryIsInclusive(proba: ClassProbabilities)
    ensures proba.accepted == 0.61 ==> Decide(proba).status == AcceptedStatus
    ensures ProbAccept(proba) < 61.0 ==> Decide(proba).status == RejectedStatus
  {
  }

  /** Raising the accepted-class probability never turns an acceptance into a
      rejection. */
  lemma DecideIsMonotone(a: ClassProbabilities, b: ClassProbabilities)
    requires a.accepted <= b.accepted
    ensures Decide(a).status == AcceptedStatus ==> Decide(b).status == AcceptedStatus
  {
  }

  /** The decision reads only the accepted-class probability. */
  lemma DecideIgnoresRejectedClass(a: ClassProbabilities, b: ClassProbabilities)
    requires a.accepted == b.accepted
    ensures Decide(a) == Decide(b)
  {
  }
}
