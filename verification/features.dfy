/** The feature builder of the recruitment app (`preprocess_input` in app.py).

    The Python code works on a one-row pandas frame whose columns are addressed
    by name. The model keeps that shape: a `Row` maps column names to numbers,
    and each step of `preprocess_input` is a function from row to row, so that
    the order of the steps (one-hot, derived scores, scaling, projection) is
    explicit. The pre-fit scaler is a function parameter whose internals are not
    modelled. */
module Features {
  import opened Wrappers

  /** The three recruitment strategies offered by the input form. */
  datatype Strategy = Referral | JobFair | Outsourcing

  /** The label the form shows for a strategy; it is also the key of the one-hot table. */
  function Label(s: Strategy): string {
    match s
    case Referral => "Referral"
    case JobFair => "Job Fair"
    case Outsourcing => "Outsourcing"
  }

  /** The strategy a label names, if any. */
  function StrategyOf(key: string): (r: Option<Strategy>)
    ensures r.Some? ==> Label(r.value) == key
    ensures forall s :: Label(s) == key ==> r == Some(s)
  {
    if key == "Referral" then Some(Referral)
    else if key == "Job Fair" then Some(JobFair)
    else if key == "Outsourcing" then Some(Outsourcing)
    else None
  }

  /** Values of the indicator columns RecruitmentStrategy_1, _2 and _3. */
  datatype OneHot = OneHot(rs1: int, rs2: int, rs3: int)

  /** Every indicator is 0 or 1 and exactly one of them is 1. */
  predicate IsOneHot(oh: OneHot) {
    && 0 <= oh.rs1 <= 1
    && 0 <= oh.rs2 <= 1
    && 0 <= oh.rs3 <= 1
    && oh.rs1 + oh.rs2 + oh.rs3 == 1
  }

  /** The 1-based indicator column that belongs to a strategy. */
  function Position(s: Strategy): int {
    match s
    case Referral => 1
    case JobFair => 2
    case Outsourcing => 3
  }

  /** Reference one-hot encoding: the indicator at the strategy's position is 1. */
  function Encode(s: Strategy): (oh: OneHot)
    ensures IsOneHot(oh)
  {
    OneHot(if Position(s) == 1 then 1 else 0,
           if Position(s) == 2 then 1 else 0,
           if Position(s) == 3 then 1 else 0)
  }

  /** Reads a strategy back from its indicators; None when they are not one-hot. */
  function Decode(oh: OneHot): Option<Strategy> {
    if oh == OneHot(1, 0, 0) then Some(Referral)
    else if oh == OneHot(0, 1, 0) then Some(JobFair)
    else if oh == OneHot(0, 0, 1) then Some(Outsourcing)
    else None
  }

  /** Decoding inverts the encoding, and only encodings decode. */
  lemma DecodeEncode(s: Strategy, oh: OneHot)
    ensures Decode(oh) == Some(s) <==> oh == Encode(s)
  {
  }

  /** Every one-hot triple is the encoding of exactly the strategy it decodes to. */
  lemma OneHotIsAnEncoding(oh: OneHot)
    ensures IsOneHot(oh) <==> (Decode(oh).Some? && Encode(Decode(oh).value) == oh)
  {
  }

  /** The table `preprocess_input` indexes with the strategy label. */
  const StrategyTable: map<string, OneHot> :=
    map["Referral" := OneHot(1, 0, 0), "Job Fair" := OneHot(0, 1, 0), "Outsourcing" := OneHot(0, 0, 1)]

  /** Indexing a Python dict with a missing key raises KeyError. */
  datatype Error = UnknownStrategy(key: string)

  /** The one-hot triple for a label, or the KeyError an unknown label raises
      (there is no all-zero fallback). */
  function LookupStrategy(key: string): (r: Result<OneHot, Error>)
    ensures r.Success? <==> StrategyOf(key).Some?
    ensures r.Success? ==> r.value == Encode(StrategyOf(key).value)
    ensures r.Failure? ==> r.error == UnknownStrategy(key)
  {
    if key in StrategyTable then Success(StrategyTable[key]) else Failure(UnknownStrategy(key))
  }

  /** The six form fields handed to `preprocess_input`. */
  datatype CandidateInput = CandidateInput(
    educationLevel: int,
    experienceYears: int,
    interviewScore: int,
    skillScore: int,
    personalityScore: int,
    recruitmentStrategy: string)

  /** The ranges the input widgets enforce: education 1..4, experience 0..40,
      each score 0..100. `preprocess_input` itself checks none of them. */
  predicate InFormRanges(c: CandidateInput) {
    && 1 <= c.educationLevel <= 4
    && 0 <= c.experienceYears <= 40
    && 0 <= c.interviewScore <= 100
    && 0 <= c.skillScore <= 100
    && 0 <= c.personalityScore <= 100
  }

  /** The columns of the frame `preprocess_input` builds. */
  datatype Column =
    | EducationLevel | ExperienceYears | InterviewScore | SkillScore | PersonalityScore
    | RecruitmentStrategy1 | RecruitmentStrategy2 | RecruitmentStrategy3
    | TotalScore | SkillExperienceInteraction

  /** The pandas name of a column. */
  function ColumnName(col: Column): string {
    match col
    case EducationLevel => "EducationLevel"
    case ExperienceYears => "ExperienceYears"
    case InterviewScore => "InterviewScore"
    case SkillScore => "SkillScore"
    case PersonalityScore => "PersonalityScore"
    case RecruitmentStrategy1 => "RecruitmentStrategy_1"
    case RecruitmentStrategy2 => "RecruitmentStrategy_2"
    case RecruitmentStrategy3 => "RecruitmentStrategy_3"
    case TotalScore => "TotalScore"
    case SkillExperienceInteraction => "Skill_Experience_Interaction"
  }

  /** A one-row frame: column to cell value. */
  type Row = map<Column, real>

  /** The columns the scaler was fit on, in the order they are passed to it. */
  const NumericColumns: seq<Column> := [ExperienceYears, InterviewScore, SkillScore, PersonalityScore]

  /** The column order the classifier was trained on. */
  const SelectedFeatures: seq<Column> := [
    EducationLevel, ExperienceYears, InterviewScore, SkillScore, PersonalityScore,
    RecruitmentStrategy1, RecruitmentStrategy2, TotalScore, SkillExperienceInteraction,
    RecruitmentStrategy3]

  /** The same order, spelled with pandas column names. */
  const SelectedFeatureNames: seq<string> := [
    "EducationLevel", "ExperienceYears", "InterviewScore", "SkillScore",
    "PersonalityScore", "RecruitmentStrategy_1", "RecruitmentStrategy_2",
    "TotalScore", "Skill_Experience_Interaction", "RecruitmentStrategy_3"]

  predicate HasColumns(row: Row, cols: seq<Column>) {
    forall k :: 0 <= k < |cols| ==> cols[k] in row
  }

  /** The row holds every column. */
  predicate Complete(row: Row) {
    && EducationLevel in row && ExperienceYears in row && InterviewScore in row
    && SkillScore in row && PersonalityScore in row
    && RecruitmentStrategy1 in row && RecruitmentStrategy2 in row && RecruitmentStrategy3 in row
    && TotalScore in row && SkillExperienceInteraction in row
  }

  /** The row holds the four columns the scaler and the derived scores read. */
  predicate HasNumeric(row: Row) {
    ExperienceYears in row && InterviewScore in row && SkillScore in row && PersonalityScore in row
  }

  /** The four numeric columns as they go into and come out of `scaler.transform`. */
  datatype ScalerColumns = ScalerColumns(experienceYears: real, interviewScore: real, skillScore: real, personalityScore: real)

  /** The pre-fit scaler: opaque, deterministic, one row of four columns to one row of four. */
  type Scaler = ScalerColumns -> ScalerColumns

  /** The raw numeric inputs, as the scaler would see them. */
  function RawNumeric(c: CandidateInput): ScalerColumns {
    ScalerColumns(c.experienceYears as real, c.interviewScore as real, c.skillScore as real, c.personalityScore as real)
  }

  /** `pd.DataFrame([data])`, numeric columns only (the label column is never projected). */
  function InitialRow(c: CandidateInput): (row: Row)
    ensures EducationLevel in row && HasNumeric(row)
    ensures forall col :: col in row ==> !IsIndicator(col) && !IsDerived(col)
    ensures row[EducationLevel] == c.educationLevel as real
    ensures Gather(row) == RawNumeric(c)
  {
    map[EducationLevel := c.educationLevel as real,
        ExperienceYears := c.experienceYears as real,
        InterviewScore := c.interviewScore as real,
        SkillScore := c.skillScore as real,
        PersonalityScore := c.personalityScore as real]
  }

  predicate IsIndicator(col: Column) {
    col.RecruitmentStrategy1? || col.RecruitmentStrategy2? || col.RecruitmentStrategy3?
  }

  /** Writes the three indicator columns; every other column is left as it was. */
  function AssignOneHot(row: Row, oh: OneHot): (r: Row)
    ensures forall col :: col in r ==> col in row || IsIndicator(col)
    ensures RecruitmentStrategy1 in r && RecruitmentStrategy2 in r && RecruitmentStrategy3 in r
    ensures r[RecruitmentStrategy1] == oh.rs1 as real
    ensures r[RecruitmentStrategy2] == oh.rs2 as real
    ensures r[RecruitmentStrategy3] == oh.rs3 as real
    ensures forall col :: col in row && !IsIndicator(col) ==> col in r && r[col] == row[col]
  {
    row[RecruitmentStrategy1 := oh.rs1 as real][RecruitmentStrategy2 := oh.rs2 as real][RecruitmentStrategy3 := oh.rs3 as real]
  }

  predicate IsDerived(col: Column) {
    col.TotalScore? || col.SkillExperienceInteraction?
  }

  /** Adds TotalScore and Skill_Experience_Interaction computed from the row's
      score columns as they are at this step; every other column is left as it was. */
  function AddDerived(row: Row): (r: Row)
    requires HasNumeric(row)
    ensures forall col :: col in r ==> col in row || IsDerived(col)
    ensures TotalScore in r && SkillExperienceInteraction in r
    ensures r[TotalScore] == row[SkillScore] + row[InterviewScore] + row[PersonalityScore]
    ensures r[SkillExperienceInteraction] == Interaction(row[SkillScore], row[ExperienceYears])
    ensures forall col :: col in row && !IsDerived(col) ==> col in r && r[col] == row[col]
  {
    row[TotalScore := row[SkillScore] + row[InterviewScore] + row[PersonalityScore]]
       [SkillExperienceInteraction := Interaction(row[SkillScore], row[ExperienceYears])]
  }

  /** Skill_Experience_Interaction of a skill score and an experience value. */
  function Interaction(skill: real, experience: real): real {
    skill * experience
  }

  /** The four numeric columns of a row, in scaler order. */
  function Gather(row: Row): ScalerColumns
    requires HasNumeric(row)
  {
    ScalerColumns(row[ExperienceYears], row[InterviewScore], row[SkillScore], row[PersonalityScore])
  }

  /** `df[numeric_columns] = scaler.transform(df[numeric_columns])`: the four
      numeric columns are replaced by the scaler's output and no other column
      changes. */
  function ApplyScaler(row: Row, scaler: Scaler): (r: Row)
    requires HasNumeric(row)
    ensures forall col :: col in r ==> col in row
    ensures forall col :: col in row && col !in NumericColumns ==> col in r && r[col] == row[col]
    ensures HasNumeric(r)
    ensures Gather(r) == scaler(Gather(row))
  {
    var scaled := scaler(Gather(row));
    row[ExperienceYears := scaled.experienceYears][InterviewScore := scaled.interviewScore]
       [SkillScore := scaled.skillScore][PersonalityScore := scaled.personalityScore]
  }

  /** `df[cols]`: the cells of the given columns, in the order given. */
  function Project(row: Row, cols: seq<Column>): (cells: seq<real>)
    requires HasColumns(row, cols)
    ensures |cells| == |cols|
    ensures forall k :: 0 <= k < |cols| ==> cells[k] == row[cols[k]]
  {
    seq(|cols|, k requires 0 <= k < |cols| => row[cols[k]])
  }

  /** The ten-column input of the classifier, one field per column of `SelectedFeatures`. */
  datatype FeatureVector = FeatureVector(
    educationLevel: real,
    experienceYears: real,
    interviewScore: real,
    skillScore: real,
    personalityScore: real,
    recruitmentStrategy1: real,
    recruitmentStrategy2: real,
    totalScore: real,
    skillExperienceInteraction: real,
    recruitmentStrategy3: real)

  /** The vector's cells in column order. */
  function Columns(fv: FeatureVector): (cols: seq<real>)
    ensures |cols| == |SelectedFeatures|
  {
    [fv.educationLevel, fv.experienceYears, fv.interviewScore, fv.skillScore, fv.personalityScore,
     fv.recruitmentStrategy1, fv.recruitmentStrategy2, fv.totalScore, fv.skillExperienceInteraction,
     fv.recruitmentStrategy3]
  }

  /** Reads a vector from ten cells in column order. */
  function FromColumns(cols: seq<real>): FeatureVector
    requires |cols| == |SelectedFeatures|
  {
    FeatureVector(cols[0], cols[1], cols[2], cols[3], cols[4], cols[5], cols[6], cols[7], cols[8], cols[9])
  }

  /** Where a column sits in the fixed order. */
  function ColumnIndex(col: Column): (k: nat)
    ensures k < |SelectedFeatures|
  {
    match col
    case EducationLevel => 0
    case ExperienceYears => 1
    case InterviewScore => 2
    case SkillScore => 3
    case PersonalityScore => 4
    case RecruitmentStrategy1 => 5
    case RecruitmentStrategy2 => 6
    case TotalScore => 7
    case SkillExperienceInteraction => 8
    case RecruitmentStrategy3 => 9
  }

  /** The cell of one column of the vector. */
  function Field(fv: FeatureVector, col: Column): real {
    match col
    case EducationLevel => fv.educationLevel
    case ExperienceYears => fv.experienceYears
    case InterviewScore => fv.interviewScore
    case SkillScore => fv.skillScore
    case PersonalityScore => fv.personalityScore
    case RecruitmentStrategy1 => fv.recruitmentStrategy1
    case RecruitmentStrategy2 => fv.recruitmentStrategy2
    case TotalScore => fv.totalScore
    case SkillExperienceInteraction => fv.skillExperienceInteraction
    case RecruitmentStrategy3 => fv.recruitmentStrategy3
  }

  /** Ten cells in column order and the typed vector are interchangeable. */
  lemma ColumnsRoundTrip(fv: FeatureVector, cols: seq<real>)
    requires |cols| == |SelectedFeatures|
    ensures FromColumns(Columns(fv)) == fv
    ensures Columns(FromColumns(cols)) == cols
  {
  }

  /** The k-th cell of the vector is the k-th column of the fixed order; that
      order lists every column exactly once, under the pandas names the model
      was trained with. */
  lemma ColumnsFollowSelectedFeatures(fv: FeatureVector)
    ensures forall k :: 0 <= k < |SelectedFeatures| ==> Columns(fv)[k] == Field(fv, SelectedFeatures[k])
    ensures forall col :: SelectedFeatures[ColumnIndex(col)] == col
    ensures forall j, k :: 0 <= j < k < |SelectedFeatures| ==> SelectedFeatures[j] != SelectedFeatures[k]
    ensures forall k :: 0 <= k < |SelectedFeatures| ==> ColumnName(SelectedFeatures[k]) == SelectedFeatureNames[k]
  {
  }

  /** The one-hot indicators of a vector equal a given triple. */
  predicate HasIndicators(fv: FeatureVector, oh: OneHot) {
    && fv.recruitmentStrategy1 == oh.rs1 as real
    && fv.recruitmentStrategy2 == oh.rs2 as real
    && fv.recruitmentStrategy3 == oh.rs3 as real
  }

  /** The frame `preprocess_input` holds just before projection: indicators
      written, derived columns computed from the raw scores, then the four
      numeric columns scaled. */
  function BuildRow(c: CandidateInput, oh: OneHot, scaler: Scaler): (row: Row)
    ensures Complete(row)
    ensures row[EducationLevel] == c.educationLevel as real
    ensures HasNumeric(row) && Gather(row) == scaler(RawNumeric(c))
    ensures row[RecruitmentStrategy1] == oh.rs1 as real
    ensures row[RecruitmentStrategy2] == oh.rs2 as real
    ensures row[RecruitmentStrategy3] == oh.rs3 as real
    ensures row[TotalScore] == (c.skillScore + c.interviewScore + c.personalityScore) as real
    ensures row[SkillExperienceInteraction] == Interaction(c.skillScore as real, c.experienceYears as real)
  {
    var row0 := InitialRow(c);
    var row1 := AssignOneHot(row0, oh);
    assert row1[EducationLevel] == c.educationLevel as real && HasNumeric(row1) && Gather(row1) == RawNumeric(c);
    var row2 := AddDerived(row1);
    assert row2[EducationLevel] == c.educationLevel as real && Gather(row2) == RawNumeric(c);
    assert row2[RecruitmentStrategy1] == oh.rs1 as real && row2[RecruitmentStrategy2] == oh.rs2 as real
        && row2[RecruitmentStrategy3] == oh.rs3 as real;
    var row3 := ApplyScaler(row2, scaler);
    row3
  }

  /** Projecting a complete row on the fixed order fills each field of the
      vector from the column of the same name. */
  lemma ProjectSelected(row: Row)
    requires Complete(row)
    ensures HasColumns(row, SelectedFeatures)
    ensures FromColumns(Project(row, SelectedFeatures))
         == FeatureVector(row[EducationLevel], row[ExperienceYears], row[InterviewScore], row[SkillScore],
                          row[PersonalityScore], row[RecruitmentStrategy1], row[RecruitmentStrategy2],
                          row[TotalScore], row[SkillExperienceInteraction], row[RecruitmentStrategy3])
  {
    assert HasColumns(row, SelectedFeatures);
  }

  /** `preprocess_input(data, scaler)`: look the strategy up (KeyError if
      unknown), write the indicators, derive TotalScore and the interaction term
      from the raw scores, scale the four numeric columns, project the ten
      selected columns. */
  function PreprocessInput(c: CandidateInput, scaler: Scaler): (r: Result<FeatureVector, Error>)
    ensures r.Success? <==> StrategyOf(c.recruitmentStrategy).Some?
    ensures r.Failure? ==> r.error == UnknownStrategy(c.recruitmentStrategy)
    ensures r.Success? ==>
      var fv := r.value;
      && fv.educationLevel == c.educationLevel as real
      && ScalerColumns(fv.experienceYears, fv.interviewScore, fv.skillScore, fv.personalityScore) == scaler(RawNumeric(c))
      && HasIndicators(fv, Encode(StrategyOf(c.recruitmentStrategy).value))
      && fv.totalScore == (c.skillScore + c.interviewScore + c.personalityScore) as real
      && fv.skillExperienceInteraction == Interaction(c.skillScore as real, c.experienceYears as real)
  {
    match LookupStrategy(c.recruitmentStrategy)
    case Failure(e) => Failure(e)
    case Success(oh) =>
      var row := BuildRow(c, oh, scaler);
      ProjectSelected(row);
      Success(FromColumns(Project(row, SelectedFeatures)))
  }

  /** The scaler affects only the four scaled columns: under any two scalers the
      education level, the indicators and both derived columns agree. */
  lemma UnscaledColumnsIgnoreScaler(c: CandidateInput, s1: Scaler, s2: Scaler)
    requires StrategyOf(c.recruitmentStrategy).Some?
    ensures
      var a := PreprocessInput(c, s1).value;
      var b := PreprocessInput(c, s2).value;
      && a.educationLevel == b.educationLevel
      && a.recruitmentStrategy1 == b.recruitmentStrategy1
      && a.recruitmentStrategy2 == b.recruitmentStrategy2
      && a.recruitmentStrategy3 == b.recruitmentStrategy3
      && a.totalScore == b.totalScore
      && a.skillExperienceInteraction == b.skillExperienceInteraction
  {
  }

  /** A scaler that halves every column. */
  function Halve(x: ScalerColumns): ScalerColumns {
    ScalerColumns(x.experienceYears / 2.0, x.interviewScore / 2.0, x.skillScore / 2.0, x.personalityScore / 2.0)
  }

  /** Deriving before scaling matters: with a halving scaler TotalScore stays
      225 while the scaled scores it was summed from add up to 112.5, and the
      interaction term stays 400 while the scaled factors multiply to 100. */
  lemma DerivedColumnsUseRawScores()
    ensures
      var fv := PreprocessInput(CandidateInput(2, 5, 70, 80, 75, "Referral"), Halve).value;
      && fv.totalScore == 225.0
      && fv.skillScore + fv.interviewScore + fv.personalityScore == 112.5
      && fv.skillExperienceInteraction == 400.0
      && Interaction(fv.skillScore, fv.experienceYears) == 100.0
  {
    var c := CandidateInput(2, 5, 70, 80, 75, "Referral");
    assert StrategyOf(c.recruitmentStrategy).Some?;
    var fv := PreprocessInput(c, Halve).value;
    assert ScalerColumns(fv.experienceYears, fv.interviewScore, fv.skillScore, fv.personalityScore)
        == ScalerColumns(2.5, 35.0, 40.0, 37.5);
  }

  /** The worked example: education 2, experience 5, interview 70, skill 80,
      personality 75, Referral gives TotalScore 225, interaction 400 and
      indicators 1, 0, 0, whatever the scaler. */
  lemma ReferralExample(scaler: Scaler)
    ensures
      var r := PreprocessInput(CandidateInput(2, 5, 70, 80, 75, "Referral"), scaler);
      && r.Success?
      && r.value.educationLevel == 2.0
      && r.value.totalScore == 225.0
      && r.value.skillExperienceInteraction == 400.0
      && r.value.recruitmentStrategy1 == 1.0
      && r.value.recruitmentStrategy2 == 0.0
      && r.value.recruitmentStrategy3 == 0.0
  {
    assert StrategyOf("Referral") == Some(Referral);
  }

  lemma InteractionBounds(skill: real, experience: real)
    requires 0.0 <= skill <= 100.0 && 0.0 <= experience <= 40.0
    ensures 0.0 <= Interaction(skill, experience) <= 4000.0
  {
    if skill != 0.0 && experience != 0.0 {
      assert 0.0 < skill * experience;
      assert 0.0 <= (100.0 - skill) * experience;
    }
  }

  /** Inside the form's ranges the derived columns stay small (0..300 and
      0..4000), far from any 64-bit integer limit. */
  lemma DerivedColumnsBounded(c: CandidateInput, scaler: Scaler)
    requires InFormRanges(c)
    requires StrategyOf(c.recruitmentStrategy).Some?
    ensures 0.0 <= PreprocessInput(c, scaler).value.totalScore <= 300.0
    ensures 0.0 <= PreprocessInput(c, scaler).value.skillExperienceInteraction <= 4000.0
  {
    InteractionBounds(c.skillScore as real, c.experienceYears as real);
  }
}
